/** What every step of the driver keeps. */
module DriverInvariants {
  import opened Base
  import opened Delivery
  import opened DriverLog
  import opened DriverSteps

  ghost predicate Numbered(log: seq<Record>) {
    |log| <= U64_MAX && forall i :: 0 <= i < |log| ==> log[i].sequence == i + 1
  }

  predicate StartedAt(log: seq<Record>, i: int) {
    0 <= i < |log| && log[i].event.DeliveryStarted?
  }

  function DeliveryAt(log: seq<Record>, i: nat): Submitted
    requires StartedAt(log, i)
  {
    FromPayload(log[i].event.payload, i + 1).delivery
  }

  /** Event `j` withdraws the delivery that event `i` started. */
  predicate Withdraws(log: seq<Record>, j: int, i: nat) {
    0 <= j < |log| && log[j].event.NotSubmitted? && log[j].event.startedSeq == Some(i + 1)
  }

  ghost predicate Withdrawn(log: seq<Record>, i: nat) {
    exists j :: i < j < |log| && Withdraws(log, j, i)
  }

  /** Memory `s` is the rebuilt maps `r`, plus the human nodes settled without an event, plus the
      panes carried over a re-binding that replay forgets. */
  ghost predicate Agree(s: DriverMaps, r: DriverMaps, human: set<Allocation>, carried: set<string>) {
    && s.generations == r.generations
    && s.pendingAllocations == r.pendingAllocations
    && s.pendingCleanups == r.pendingCleanups
    && s.launched == r.launched
    && s.ambiguous == r.ambiguous
    && s.submitted == r.submitted
    && s.settled == r.settled + human
    && s.tmux.Some? == r.tmux.Some?
    && (s.tmux.Some? ==> s.tmux.value.binding == r.tmux.value.binding)
    && r.Panes() == Without(s.Panes(), carried)
    && carried <= s.Panes().Keys
  }

  ghost predicate Agrees(l: Live) {
    Agree(l.maps, Replay(l.log), l.human, l.carried)
  }

  ghost predicate PendingKeyed(s: DriverMaps) {
    && s.pendingAllocations.Keys !! s.Panes().Keys
    && (forall id <- s.pendingAllocations :: s.pendingAllocations[id].activationId == id)
    && (forall id <- s.pendingCleanups :: s.pendingCleanups[id].activationId == id)
  }

  /** Barriers are filed under their own keys, and no key is both ambiguous and submitted. */
  predicate Keyed(s: DriverMaps) {
    && (forall k <- s.ambiguous :: KeyedAs(k, s.ambiguous[k].delivery))
    && (forall k <- s.submitted :: KeyedAs(k, s.submitted[k]))
    && s.ambiguous.Keys !! s.submitted.Keys
  }

  predicate KeyedAs(key: Key, d: Submitted) {
    key == KeyOf(d) && WellRoled(d.role, d.messageId)
  }

  ghost predicate WellStarted(log: seq<Record>) {
    forall i :: StartedAt(log, i) ==>
      log[i].event.payload.startedSeq == None && WellRoled(DeliveryAt(log, i).role, DeliveryAt(log, i).messageId)
  }

  /** The delivery is the one that the event with its sequence started. */
  predicate Traced(log: seq<Record>, d: Submitted) {
    1 <= d.startedSeq && StartedAt(log, d.startedSeq - 1) && DeliveryAt(log, d.startedSeq - 1) == d
  }

  ghost predicate AllTraced(log: seq<Record>, s: DriverMaps) {
    && (forall k <- s.ambiguous :: Traced(log, s.ambiguous[k].delivery))
    && (forall k <- s.submitted :: Traced(log, s.submitted[k]))
  }

  /** A started delivery that was not withdrawn is still filed, under its own sequence. */
  ghost predicate Tracked(s: DriverMaps, d: Submitted) {
    || (KeyOf(d) in s.ambiguous && s.ambiguous[KeyOf(d)].delivery == d)
    || (KeyOf(d) in s.submitted && s.submitted[KeyOf(d)] == d)
  }

  ghost predicate Covered(log: seq<Record>, s: DriverMaps) {
    forall i :: StartedAt(log, i) && !Withdrawn(log, i) ==> Tracked(s, DeliveryAt(log, i))
  }

  /** A submitted launch or prompt of the pane that is owned now shuts the gate it came through. */
  ghost predicate Gated(s: DriverMaps, settled: set<Allocation>) {
    forall k <- s.submitted ::
      var d := s.submitted[k];
      d.activationId in s.Panes() && s.Panes()[d.activationId].generation == d.generation ==>
        && (d.role == AgentLaunch ==> (d.activationId, d.generation) in s.launched)
        && (d.role == NodePrompt ==> (d.activationId, d.generation) in settled)
  }

  predicate AllocatedAt(log: seq<Record>, i: int, id: string) {
    0 <= i < |log| && log[i].event.PaneAllocated? && log[i].event.activationId == id
  }

  /** How often the log allocates a pane to the activation. */
  function AllocationCount(log: seq<Record>, id: string): (n: nat)
    ensures n <= |log|
  {
    if log == [] then 0
    else AllocationCount(log[..|log| - 1], id) + (if AllocatedAt(log, |log| - 1, id) then 1 else 0)
  }

  ghost predicate Generations(log: seq<Record>, s: DriverMaps) {
    && (forall id <- s.Panes() :: id in s.generations && s.Panes()[id].generation == s.generations[id])
    && (forall id <- s.pendingAllocations ::
          s.pendingAllocations[id].generation == s.NextGeneration(id))
    && (forall id :: AllocationCount(log, id) == if id in s.generations then s.generations[id] + 1 else 0)
    && (forall i :: StartedAt(log, i) ==>
          var d := DeliveryAt(log, i);
          d.activationId in s.generations && d.generation <= s.generations[d.activationId])
  }

  /** The n-th allocation of an activation, counted from zero, has generation n. */
  ghost predicate NumberedAllocations(log: seq<Record>) {
    forall i, id :: AllocatedAt(log, i, id) ==>
      && log[i].event.generation == Some(AllocationCount(log[..i], id))
      && log[i].event.pane.generation == AllocationCount(log[..i], id)
  }

  /** Two deliveries that must not both reach a participant. */
  predicate SameInput(a: Submitted, b: Submitted) {
    if a.messageId.Some? then a.messageId == b.messageId
    else KeyOf(a) == KeyOf(b)
  }

  ghost predicate AtMostOnce(log: seq<Record>) {
    forall i, j :: 0 <= i < j && StartedAt(log, i) && StartedAt(log, j)
                   && SameInput(DeliveryAt(log, i), DeliveryAt(log, j))
      ==> exists k :: i < k < j && Withdraws(log, k, i)
  }

  ghost predicate Inv(l: Live) {
    && Numbered(l.log)
    && l.eventCount == |l.log|
    && Agrees(l)
    && Keyed(l.maps)
    && WellStarted(l.log)
    && AllTraced(l.log, l.maps)
    && Covered(l.log, l.maps)
    && Gated(l.maps, Replay(l.log).settled)
    && PendingKeyed(l.maps)
    && Generations(l.log, l.maps)
    && NumberedAllocations(l.log)
    && AtMostOnce(l.log)
  }
}
