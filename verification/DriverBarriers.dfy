/** The delivery barriers over a step: they stay filed under their own keys and traced to the events
    that started them, an input is started only when nothing of the same kind is filed, and so no
    input is started twice. */
module DriverBarriers {
  import opened Base
  import opened Delivery
  import opened DriverLog
  import opened DriverSteps
  import opened DriverInvariants
  import opened DriverPreservation

  function StartedDelivery(s: DriverMaps, op: Op, sequence: nat): Submitted
    requires IsStart(op) && op.activationId in s.Panes()
  {
    FromPayload(StartedPayload(s, op), sequence).delivery
  }

  /** The five things an operation can do to the barrier maps. */
  datatype Change =
    | Untouched
    | Started(delivery: Submitted)
    | Submitting(key: Key)
    | Dropping(key: Key)
    | Reopening(keys: set<Key>)

  function ChangeOf(s: DriverMaps, op: Op, sequence: nat): Change
    requires Enabled(s, op)
  {
    if IsStart(op) then Started(StartedDelivery(s, op, sequence))
    else
      match op
      case Finish(id, role, messageId, generation) => Submitting(DeliveryKey(id, role, messageId, generation))
      case Discard(key) => Dropping(key)
      case Release(ids) => Reopening(BarrierKeySet(ReleasedBarriers(s, ids), sequence))
      case _ => Untouched
  }

  ghost predicate Changes(s: DriverMaps, s': DriverMaps, change: Change) {
    match change
    case Untouched => s'.ambiguous == s.ambiguous && s'.submitted == s.submitted
    case Started(d) =>
      && s'.ambiguous == s.ambiguous[KeyOf(d) := Ambiguous(d, SubmissionReceiptIncomplete)]
      && s'.submitted == Without(s.submitted, {KeyOf(d)})
    case Submitting(key) =>
      && key in s.ambiguous
      && s'.ambiguous == Without(s.ambiguous, {key})
      && s'.submitted == s.submitted[key := s.ambiguous[key].delivery]
    case Dropping(key) =>
      && key in s.ambiguous
      && s'.ambiguous == Without(s.ambiguous, {key})
      && s'.submitted == Without(s.submitted, {key})
    case Reopening(keys) =>
      && keys <= s.submitted.Keys
      && s'.ambiguous == Reopened(s, keys).ambiguous
      && s'.submitted == Without(s.submitted, keys)
  }

  lemma ReleaseChanges(s: DriverMaps, ids: seq<string>, sequence: nat)
    requires Keyed(s) && s.tmux.Some?
    ensures Changes(s, ReleaseEffect(s, ids, sequence), Reopening(BarrierKeySet(ReleasedBarriers(s, ids), sequence)))
  {
    ReleaseReplays(s, ids, sequence);
  }

  lemma StartChanges(s: DriverMaps, op: Op, sequence: nat)
    requires IsStart(op) && Enabled(s, op)
    ensures Changes(s, Effect(s, op, sequence), Started(StartedDelivery(s, op, sequence)))
  {
  }

  lemma ResolveChanges(s: DriverMaps, op: Op, sequence: nat)
    requires (op.Finish? || op.Discard?) && Enabled(s, op)
    ensures Changes(s, Effect(s, op, sequence), ChangeOf(s, op, sequence))
  {
  }

  lemma EffectChanges(s: DriverMaps, op: Op, sequence: nat)
    requires Enabled(s, op) && Keyed(s)
    ensures Changes(s, Effect(s, op, sequence), ChangeOf(s, op, sequence))
  {
    if op.Release? {
      assert op.activationIds[0] in s.Panes();
      ReleaseChanges(s, op.activationIds, sequence);
    } else if IsStart(op) {
      StartChanges(s, op, sequence);
    } else if op.Finish? || op.Discard? {
      ResolveChanges(s, op, sequence);
    } else {
      assert ChangeOf(s, op, sequence) == Untouched;
    }
  }

  lemma ChangeKeepsKeyed(s: DriverMaps, s': DriverMaps, change: Change)
    requires Keyed(s) && Changes(s, s', change)
    requires change.Started? ==> WellRoled(change.delivery.role, change.delivery.messageId)
    ensures Keyed(s')
  {
  }

  lemma ChangeKeepsTraced(log: seq<Record>, record: Record, s: DriverMaps, s': DriverMaps, change: Change)
    requires AllTraced(log, s) && Changes(s, s', change)
    requires change.Started? ==> Traced(log + [record], change.delivery)
    ensures AllTraced(log + [record], s')
  {
    assert forall d :: Traced(log, d) ==> Traced(log + [record], d);
  }

  /** Nothing is filed that the new delivery would displace. */
  ghost predicate Fresh(s: DriverMaps, d: Submitted) {
    && KeyOf(d) !in s.ambiguous
    && KeyOf(d) !in s.submitted
    && (d.messageId.Some? ==> !CarriesMessage(s, d.messageId.value))
  }

  /** The gates of actuate_activations and send_message let an input through only when no delivery
      of the same kind is filed, ambiguous or submitted. */
  lemma GatesMeanFresh(s: DriverMaps, settled: set<Allocation>, op: Op, sequence: nat)
    requires IsStart(op) && Enabled(s, op) && Keyed(s) && Gated(s, settled) && settled <= s.settled
    ensures Fresh(s, StartedDelivery(s, op, sequence))
    ensures WellRoled(StartedDelivery(s, op, sequence).role, StartedDelivery(s, op, sequence).messageId)
  {
    var d := StartedDelivery(s, op, sequence);
    var key := KeyOf(d);
    if key in s.submitted {
      FiledSubmission(s, d);
    }
    if d.messageId.Some? && key in s.ambiguous {
      FiledGeneration(s, d.activationId, d.role, d.messageId, d.generation);
    }
  }

  lemma FiledSubmission(s: DriverMaps, d: Submitted)
    requires Keyed(s) && WellRoled(d.role, d.messageId) && KeyOf(d) in s.submitted
    ensures var filed := s.submitted[KeyOf(d)];
            && filed.activationId == d.activationId && filed.role == d.role
            && filed.messageId == d.messageId && filed.generation == d.generation
  {
    var filed := s.submitted[KeyOf(d)];
    assert KeyedAs(KeyOf(d), filed);
    DeliveryKeyInjective(d.activationId, d.role, d.messageId, d.generation,
                         filed.activationId, filed.role, filed.messageId, filed.generation);
  }

  /** A tracked delivery stays tracked unless it is dropped. */
  lemma ChangeKeepsTracked(s: DriverMaps, s': DriverMaps, change: Change, d: Submitted)
    requires Keyed(s) && Changes(s, s', change) && Tracked(s, d)
    requires change.Started? ==> Fresh(s, change.delivery)
    requires change.Dropping? ==> d != s.ambiguous[change.key].delivery
    ensures Tracked(s', d)
  {
  }

  lemma WithdrawnGrows(log: seq<Record>, record: Record, i: nat)
    requires Withdrawn(log, i)
    ensures Withdrawn(log + [record], i)
  {
    var j :| i < j < |log| && Withdraws(log, j, i);
    assert Withdraws(log + [record], j, i);
  }

  /** The delivery that a step's own event starts or withdraws. */
  ghost predicate LogsChange(s: DriverMaps, log: seq<Record>, record: Record, change: Change) {
    && record.sequence == |log| + 1
    && (record.event.DeliveryStarted? <==> change.Started?)
    && (change.Started? ==>
          record.event.payload.startedSeq == None
          && change.delivery == FromPayload(record.event.payload, record.sequence).delivery)
    && (change.Dropping? ==>
          record.event.NotSubmitted? && change.key in s.ambiguous
          && record.event.startedSeq == Some(s.ambiguous[change.key].delivery.startedSeq))
  }

  lemma StepLogsChange(l: Live, op: Op)
    requires Commits(l, op)
    ensures LogsChange(l.maps, l.log, Logged(l, op), ChangeOf(l.maps, op, |l.log| + 1))
  {
  }

  lemma ChangeKeepsCovered(log: seq<Record>, record: Record, s: DriverMaps, s': DriverMaps, change: Change)
    requires Covered(log, s) && WellStarted(log) && Keyed(s)
    requires Changes(s, s', change) && LogsChange(s, log, record, change)
    requires change.Started? ==> Fresh(s, change.delivery)
    ensures Covered(log + [record], s')
  {
    var log' := log + [record];
    forall i | StartedAt(log', i) && !Withdrawn(log', i)
      ensures Tracked(s', DeliveryAt(log', i))
    {
      if i < |log| {
        assert StartedAt(log, i);
        if Withdrawn(log, i) { WithdrawnGrows(log, record, i); }
        var d := DeliveryAt(log, i);
        assert DeliveryAt(log', i) == d && d.startedSeq == i + 1;
        assert change.Dropping? && d == s.ambiguous[change.key].delivery ==> Withdraws(log', |log|, i);
        ChangeKeepsTracked(s, s', change, d);
      }
    }
  }

  lemma ChangeKeepsAtMostOnce(log: seq<Record>, record: Record, s: DriverMaps, change: Change)
    requires AtMostOnce(log) && Covered(log, s)
    requires LogsChange(s, log, record, change)
    requires change.Started? ==> Fresh(s, change.delivery)
    ensures AtMostOnce(log + [record])
  {
    var log' := log + [record];
    forall i, j | 0 <= i < j && StartedAt(log', i) && StartedAt(log', j)
                  && SameInput(DeliveryAt(log', i), DeliveryAt(log', j))
      ensures exists k :: i < k < j && Withdraws(log', k, i)
    {
      assert StartedAt(log, i) && DeliveryAt(log, i) == DeliveryAt(log', i);
      if j < |log| {
        assert StartedAt(log, j) && DeliveryAt(log, j) == DeliveryAt(log', j);
        var k :| i < k < j && Withdraws(log, k, i);
        assert Withdraws(log', k, i);
      } else {
        var d := DeliveryAt(log, i);
        assert change.delivery == DeliveryAt(log', j);
        assert !Tracked(s, d);
        var k :| i < k < |log| && Withdraws(log, k, i);
        assert Withdraws(log', k, i);
      }
    }
  }
}
