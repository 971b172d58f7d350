/** The publication outbox: durable state, the primitive that each line of the commit protocol
    performs on it, and what holds after any interleaving of those primitives
    (src/driver/publication.rs, src/run_assets.rs, src/run_assets/publication.rs). A crash loses only
    memory, so it is a place where the sequence of primitives breaks off. */
module Outbox {
  import opened Base

  type RuntimeEvent = string
  type PublicRecord = string
  type Manifest = string

  datatype Mutation =
    | RuntimeEvents(base: nat, events: seq<RuntimeEvent>)
    | ManifestSwap(expected: Option<Manifest>, candidate: Manifest)

  datatype Transaction = Transaction(mutation: Mutation, records: set<PublicRecord>)

  /** One line of the private log: a batch with the count it starts at, or a single event. */
  datatype Line = BatchLine(base: nat, events: seq<RuntimeEvent>) | EventLine(event: RuntimeEvent)

  datatype Fault = BatchCountMismatch | EndsInside | EventsConflict | ManifestConflict | Blocked | IoError

  /** `history` and `accepted` are history: every transaction made pending, and the manifest that was
      accepted last. */
  datatype Disk = Disk(
    log: seq<Line>,
    manifest: Option<Manifest>,
    outbox: seq<Transaction>,
    ledger: seq<Transaction>,
    published: set<PublicRecord>,
    history: seq<Transaction>,
    accepted: Option<Manifest>)

  /** read_runtime_events. */
  function ReadEvents(lines: seq<Line>): Result<seq<RuntimeEvent>, Fault> {
    if lines == [] then Ok([])
    else
      match ReadEvents(lines[..|lines| - 1])
      case Err(fault) => Err(fault)
      case Ok(events) =>
        match lines[|lines| - 1]
        case EventLine(event) => Ok(events + [event])
        case BatchLine(base, batch) => if base == |events| then Ok(events + batch) else Err(BatchCountMismatch)
  }

  lemma ReadAppended(lines: seq<Line>, base: nat, batch: seq<RuntimeEvent>)
    requires ReadEvents(lines).Ok? && base == |ReadEvents(lines).value|
    ensures ReadEvents(lines + [BatchLine(base, batch)]) == Ok(ReadEvents(lines).value + batch)
  {
    assert (lines + [BatchLine(base, batch)])[..|lines|] == lines;
  }

  /** reconcile_private_runtime_batch: whether the batch has yet to be appended. */
  function ReconcileBatch(current: seq<RuntimeEvent>, base: nat, batch: seq<RuntimeEvent>): Result<bool, Fault> {
    if |current| == base then Ok(true)
    else if |current| < base + |batch| then Err(EndsInside)
    else if current[base..base + |batch|] != batch then Err(EventsConflict)
    else Ok(false)
  }

  /** A batch is appended when the log ends where it starts, and left alone when the log holds it there, whatever
      follows; it ends inside when the log ends before its end, and conflicts when other events are there. */
  lemma BatchReconcilesExactly(current: seq<RuntimeEvent>, base: nat, batch: seq<RuntimeEvent>)
    ensures var r := ReconcileBatch(current, base, batch);
            && (r == Ok(true) <==> |current| == base)
            && (r == Ok(false) <==>
                  |current| != base
                  && exists before, after :: |before| == base && current == before + batch + after)
            && (r == Err(EndsInside) <==> |current| != base && |current| < base + |batch|)
            && (r.Err? && r != Err(EndsInside) ==> r == Err(EventsConflict))
  {
    if |current| >= base + |batch| {
      assert current == current[..base] + current[base..base + |batch|] + current[base + |batch|..];
    }
    forall before, after | |before| == base && current == before + batch + after
      ensures |current| >= base + |batch| && current[base..base + |batch|] == batch
    {
    }
  }

  /** reconcile_private_manifest_transaction: a compare-and-swap that tolerates having been done. */
  function ReconcileManifest(current: Option<Manifest>, expected: Option<Manifest>, candidate: Manifest)
    : Result<Manifest, Fault>
  {
    if current == Some(candidate) then Ok(candidate)
    else if current != expected then Err(ManifestConflict)
    else Ok(candidate)
  }

  /** reconcile_private_transaction on the durable state. */
  function ApplyPrivate(d: Disk, t: Transaction): Result<Disk, Fault> {
    match t.mutation
    case RuntimeEvents(base, events) =>
      (match ReadEvents(d.log)
       case Err(fault) => Err(fault)
       case Ok(current) =>
         match ReconcileBatch(current, base, events)
         case Err(fault) => Err(fault)
         case Ok(missing) => Ok(if missing then d.(log := d.log + [BatchLine(base, events)]) else d))
    case ManifestSwap(expected, candidate) =>
      match ReconcileManifest(d.manifest, expected, candidate)
      case Err(fault) => Err(fault)
      case Ok(manifest) => Ok(d.(manifest := Some(manifest)))
  }

  predicate Applied(d: Disk, t: Transaction) {
    match t.mutation
    case RuntimeEvents(base, events) =>
      var current := ReadEvents(d.log);
      current.Ok? && |current.value| == base + |events| && current.value[base..] == events
    case ManifestSwap(_, candidate) => d.manifest == Some(candidate)
  }

  /** A transaction as the two writers build one: a batch that starts where the log ends, a manifest
      that replaces the current one. */
  predicate BuiltOn(d: Disk, t: Transaction) {
    match t.mutation
    case RuntimeEvents(base, events) =>
      events != [] && ReadEvents(d.log).Ok? && base == |ReadEvents(d.log).value|
    case ManifestSwap(expected, _) => expected == d.manifest && expected.Some?
  }

  datatype DiskStep =
    | Persist(transaction: Transaction)
    | Apply
    | Publish(part: set<PublicRecord>)
    | Acknowledge
    | WriteManifest(manifest: Manifest)

  predicate CanTake(d: Disk, step: DiskStep) {
    match step
    case Persist(t) => d.outbox == [] && BuiltOn(d, t)
    case Apply => d.outbox != [] && ApplyPrivate(d, d.outbox[0]).Ok?
    case Publish(part) => d.outbox != [] && Applied(d, d.outbox[0]) && part <= d.outbox[0].records
    case Acknowledge => d.outbox != [] && Applied(d, d.outbox[0]) && d.outbox[0].records <= d.published
    case WriteManifest(_) => d.outbox == [] && d.manifest.Some?
  }

  function Take(d: Disk, step: DiskStep): Disk {
    if !CanTake(d, step) then d
    else
      match step
      case Persist(t) =>
        d.(outbox := [t], history := d.history + [t],
           accepted := if t.mutation.ManifestSwap? then Some(t.mutation.candidate) else d.accepted)
      case Apply => ApplyPrivate(d, d.outbox[0]).value
      case Publish(part) => d.(published := d.published + part)
      case Acknowledge => d.(outbox := d.outbox[1..], ledger := d.ledger + [d.outbox[0]])
      case WriteManifest(manifest) => d.(manifest := Some(manifest), accepted := Some(manifest))
  }

  function TakeAll(d: Disk, steps: seq<DiskStep>): Disk {
    if steps == [] then d else Take(TakeAll(d, steps[..|steps| - 1]), steps[|steps| - 1])
  }

  /** The events of a sequence of transactions, each batch whole and in order. */
  function EventsOf(transactions: seq<Transaction>): seq<RuntimeEvent> {
    if transactions == [] then []
    else
      var before, last := EventsOf(transactions[..|transactions| - 1]), transactions[|transactions| - 1].mutation;
      if last.RuntimeEvents? then before + last.events else before
  }

  function RecordsOf(transactions: seq<Transaction>): set<PublicRecord> {
    if transactions == [] then {}
    else RecordsOf(transactions[..|transactions| - 1]) + transactions[|transactions| - 1].records
  }

  /** The transactions whose private mutation has been applied: all but perhaps the pending one. */
  ghost predicate PrivateState(d: Disk, done: seq<Transaction>) {
    && ReadEvents(d.log) == Ok(EventsOf(done))
    && RecordsOf(d.ledger) <= d.published <= RecordsOf(done)
  }

  ghost predicate DiskInv(d: Disk) {
    && |d.outbox| <= 1
    && d.history == d.ledger + d.outbox
    && (d.outbox == [] ==> PrivateState(d, d.ledger) && d.manifest == d.accepted)
    && (d.outbox != [] ==> PendingInv(d, d.outbox[0]))
  }

  ghost predicate PendingInv(d: Disk, t: Transaction) {
    match t.mutation
    case RuntimeEvents(base, events) =>
      && base == |EventsOf(d.ledger)|
      && events != []
      && (PrivateState(d, d.ledger) || PrivateState(d, d.history))
      && d.manifest == d.accepted
    case ManifestSwap(expected, candidate) =>
      && ReadEvents(d.log) == Ok(EventsOf(d.ledger))
      && d.accepted == Some(candidate)
      && ((d.manifest == expected && PrivateState(d, d.ledger))
          || (d.manifest == Some(candidate) && PrivateState(d, d.history)))
  }

  lemma HistoryAppend(transactions: seq<Transaction>, t: Transaction)
    ensures EventsOf(transactions + [t])
         == if t.mutation.RuntimeEvents? then EventsOf(transactions) + t.mutation.events else EventsOf(transactions)
    ensures RecordsOf(transactions + [t]) == RecordsOf(transactions) + t.records
  {
    assert (transactions + [t])[..|transactions|] == transactions;
  }

  /** With the invariant, applying the pending transaction never fails, and leaves it applied. */
  lemma PendingApplies(d: Disk)
    requires DiskInv(d) && d.outbox != []
    ensures var applied := ApplyPrivate(d, d.outbox[0]);
            && applied.Ok?
            && DiskInv(applied.value)
            && Applied(applied.value, d.outbox[0])
            && applied.value == d.(log := applied.value.log, manifest := applied.value.manifest)
            && (Applied(d, d.outbox[0]) ==> applied.value == d)
  {
    var t := d.outbox[0];
    assert d.outbox == [t];
    HistoryAppend(d.ledger, t);
    match t.mutation {
      case RuntimeEvents(base, events) =>
        var current := ReadEvents(d.log).value;
        if |current| == base {
          ReadAppended(d.log, base, events);
        } else {
          assert current == EventsOf(d.ledger) + events;
        }
      case ManifestSwap(expected, candidate) =>
    }
  }

  lemma PublishKeepsInv(d: Disk, part: set<PublicRecord>)
    requires DiskInv(d) && CanTake(d, Publish(part))
    ensures DiskInv(Take(d, Publish(part)))
  {
    assert d.outbox == [d.outbox[0]];
    HistoryAppend(d.ledger, d.outbox[0]);
    assert PrivateState(d, d.history);
  }

  lemma AcknowledgeKeepsInv(d: Disk)
    requires DiskInv(d) && CanTake(d, Acknowledge)
    ensures DiskInv(Take(d, Acknowledge))
  {
    assert d.outbox == [d.outbox[0]];
    HistoryAppend(d.ledger, d.outbox[0]);
    assert PrivateState(d, d.history);
    assert Take(d, Acknowledge).ledger == d.history;
  }

  /** Each primitive keeps the invariant, so every interleaving that crashes allow does. */
  lemma TakeKeepsInv(d: Disk, step: DiskStep)
    requires DiskInv(d)
    ensures DiskInv(Take(d, step))
  {
    if CanTake(d, step) {
      match step {
        case Persist(t) => HistoryAppend(d.ledger, t);
        case Apply => PendingApplies(d);
        case Publish(part) => PublishKeepsInv(d, part);
        case Acknowledge => AcknowledgeKeepsInv(d);
        case WriteManifest(manifest) =>
      }
    }
  }

  lemma {:induction false} TakeAllKeepsInv(d: Disk, steps: seq<DiskStep>)
    requires DiskInv(d)
    ensures DiskInv(TakeAll(d, steps))
  {
    if steps != [] {
      TakeAllKeepsInv(d, steps[..|steps| - 1]);
      TakeKeepsInv(TakeAll(d, steps[..|steps| - 1]), steps[|steps| - 1]);
    }
  }

  lemma PersistKeepsPrivate(d: Disk, t: Transaction)
    ensures var d' := Take(d, Persist(t)); d'.log == d.log && d'.ledger == d.ledger
  {
  }

  lemma ApplyKeepsRest(d: Disk)
    ensures var d' := Take(d, Apply); d' == d.(log := d'.log, manifest := d'.manifest)
  {
  }

  lemma TakeNothing(d: Disk)
    ensures TakeAll(d, []) == d
  {
  }

  lemma TakeOneMore(d: Disk, steps: seq<DiskStep>, step: DiskStep)
    ensures TakeAll(d, steps + [step]) == Take(TakeAll(d, steps), step)
  {
    assert (steps + [step])[..|steps|] == steps;
  }

  lemma {:induction false} TakeAllAppend(d: Disk, first: seq<DiskStep>, rest: seq<DiskStep>)
    ensures TakeAll(d, first + rest) == TakeAll(TakeAll(d, first), rest)
  {
    if rest == [] {
      assert first + rest == first;
    } else {
      TakeAllAppend(d, first, rest[..|rest| - 1]);
      assert (first + rest)[..|first + rest| - 1] == first + rest[..|rest| - 1];
    }
  }

  function NewDisk(manifest: Option<Manifest>): Disk {
    Disk([], manifest, [], [], {}, [], manifest)
  }

  /** Recovery: apply, publish and acknowledge whatever is pending. */
  function Recover(d: Disk): Disk {
    if d.outbox == [] then d
    else Take(Take(Take(d, Apply), Publish(d.outbox[0].records)), Acknowledge)
  }

  /** A crash at any point of any run of commits, followed by recovery, leaves the log as the batches
      of all transactions made pending, each whole, once and in order; their records are public, the
      outbox is empty, and the manifest is the one accepted last. */
  lemma {:induction false} RecoveryCompletesHistory(manifest: Option<Manifest>, steps: seq<DiskStep>)
    ensures var crashed := TakeAll(NewDisk(manifest), steps);
            var d := Recover(crashed);
            && d.outbox == []
            && d.history == crashed.history == d.ledger
            && ReadEvents(d.log) == Ok(EventsOf(crashed.history))
            && d.published == RecordsOf(crashed.history)
            && d.manifest == crashed.accepted
  {
    TakeAllKeepsInv(NewDisk(manifest), steps);
    RecoverCompletes(TakeAll(NewDisk(manifest), steps));
  }

  lemma RecoverCompletes(d: Disk)
    requires DiskInv(d)
    ensures var r := Recover(d);
            && DiskInv(r) && r.outbox == []
            && r.history == d.history == r.ledger
            && ReadEvents(r.log) == Ok(EventsOf(d.history))
            && r.published == RecordsOf(d.history)
            && r.manifest == d.accepted == r.accepted
  {
    if d.outbox != [] {
      var t := d.outbox[0];
      assert d.outbox == [t];
      PendingApplies(d);
      HistoryAppend(d.ledger, t);
      var d1 := Take(d, Apply);
      var d2 := Take(d1, Publish(t.records));
      TakeKeepsInv(d, Apply);
      TakeKeepsInv(d1, Publish(t.records));
      TakeKeepsInv(d2, Acknowledge);
    } else {
      assert d.ledger + d.outbox == d.ledger;
    }
  }

  lemma LogIsReadable(d: Disk)
    requires DiskInv(d)
    ensures ReadEvents(d.log).Ok?
    ensures d.outbox == [] || d.outbox[0].mutation.ManifestSwap?
            ==> ReadEvents(d.log) == Ok(EventsOf(d.ledger)) == Ok(EventsOf(d.history))
  {
    if d.outbox == [] {
      assert d.ledger + [] == d.ledger;
    } else {
      assert d.outbox == [d.outbox[0]];
      HistoryAppend(d.ledger, d.outbox[0]);
    }
  }

  /** Recovering twice is recovering once. */
  lemma {:induction false} RecoverIsIdempotent(manifest: Option<Manifest>, steps: seq<DiskStep>)
    ensures var crashed := TakeAll(NewDisk(manifest), steps); Recover(Recover(crashed)) == Recover(crashed)
  {
    RecoveryCompletesHistory(manifest, steps);
  }

  /** No reachable outbox holds more than one transaction, and neither "ends inside" nor a conflict is
      ever reported for it. */
  lemma {:induction false} PendingNeverFails(manifest: Option<Manifest>, steps: seq<DiskStep>)
    ensures var d := TakeAll(NewDisk(manifest), steps);
            && |d.outbox| <= 1
            && ReadEvents(d.log).Ok?
            && (d.outbox != [] ==> ApplyPrivate(d, d.outbox[0]).Ok?)
  {
    TakeAllKeepsInv(NewDisk(manifest), steps);
    var d := TakeAll(NewDisk(manifest), steps);
    if d.outbox != [] { PendingApplies(d); }
  }

  /** Private before public before acknowledged: a public record belongs to a transaction whose events
      are in the log, with those of every earlier one, and whose manifest, if it has one, was written; and
      an acknowledged transaction's records are all public. */
  lemma {:induction false} PrivateBeforePublic(manifest: Option<Manifest>, steps: seq<DiskStep>, record: PublicRecord)
    requires record in TakeAll(NewDisk(manifest), steps).published
    ensures var d := TakeAll(NewDisk(manifest), steps);
            exists n :: && 0 <= n < |d.history| && record in d.history[n].records
                        && ReadEvents(d.log).Ok? && EventsOf(d.history[..n + 1]) <= ReadEvents(d.log).value
                        && WasWritten(manifest, steps, d.history[n])
  {
    TakeAllKeepsInv(NewDisk(manifest), steps);
    var d := TakeAll(NewDisk(manifest), steps);
    var done := if PrivateState(d, d.ledger) then d.ledger else d.history;
    var n := RecordOrigin(done, record);
    assert done == d.history[..|done|];
    EventsArePrefix(done, n + 1);
    assert done[..n + 1] == d.history[..n + 1];
    if n < |d.ledger| {
      assert d.ledger[n] == d.history[n];
      LedgerWasWritten(manifest, steps, n);
    } else {
      assert steps[..|steps|] == steps;
      assert d.history[n] == d.outbox[0];
    }
  }

  /** A manifest that the transaction swaps in was the private one at some point of the run. */
  ghost predicate WasWritten(manifest: Option<Manifest>, steps: seq<DiskStep>, t: Transaction) {
    t.mutation.ManifestSwap? ==>
      exists m :: 0 <= m <= |steps| && TakeAll(NewDisk(manifest), steps[..m]).manifest == Some(t.mutation.candidate)
  }

  lemma {:induction false} LedgerWasWritten(manifest: Option<Manifest>, steps: seq<DiskStep>, n: nat)
    requires n < |TakeAll(NewDisk(manifest), steps).ledger|
    ensures WasWritten(manifest, steps, TakeAll(NewDisk(manifest), steps).ledger[n])
  {
    hide ApplyPrivate, ReadEvents;
    var front := steps[..|steps| - 1];
    var before := TakeAll(NewDisk(manifest), front);
    ApplyKeepsRest(before);
    if n < |before.ledger| {
      LedgerWasWritten(manifest, front, n);
      assert forall m :: 0 <= m <= |front| ==> front[..m] == steps[..m];
    } else {
      assert steps[..|front|] == front;
    }
  }

  lemma {:induction false} AcknowledgedIsPublic(manifest: Option<Manifest>, steps: seq<DiskStep>, n: nat)
    requires n < |TakeAll(NewDisk(manifest), steps).ledger|
    ensures var d := TakeAll(NewDisk(manifest), steps); d.ledger[n].records <= d.published
  {
    TakeAllKeepsInv(NewDisk(manifest), steps);
    var d := TakeAll(NewDisk(manifest), steps);
    RecordsInclude(d.ledger, n);
  }

  lemma {:induction false} RecordsInclude(transactions: seq<Transaction>, n: nat)
    requires n < |transactions|
    ensures transactions[n].records <= RecordsOf(transactions)
  {
    if n < |transactions| - 1 { RecordsInclude(transactions[..|transactions| - 1], n); }
  }

  lemma {:induction false} RecordOrigin(transactions: seq<Transaction>, record: PublicRecord) returns (n: nat)
    requires record in RecordsOf(transactions)
    ensures n < |transactions| && record in transactions[n].records
  {
    if record in transactions[|transactions| - 1].records {
      n := |transactions| - 1;
    } else {
      n := RecordOrigin(transactions[..|transactions| - 1], record);
    }
  }

  lemma {:induction false} EventsArePrefix(transactions: seq<Transaction>, n: nat)
    requires n <= |transactions|
    ensures EventsOf(transactions[..n]) <= EventsOf(transactions)
  {
    if n < |transactions| {
      EventsArePrefix(transactions[..|transactions| - 1], n);
      assert transactions[..|transactions| - 1][..n] == transactions[..n];
    } else {
      assert transactions[..n] == transactions;
    }
  }

  /** The private manifest after any number of attempts to redo a swap; an attempt that fails writes
      nothing. */
  function SwapRepeatedly(current: Option<Manifest>, expected: Option<Manifest>, candidate: Manifest, times: nat)
    : Option<Manifest>
  {
    if times == 0 then current
    else
      var before := SwapRepeatedly(current, expected, candidate, times - 1);
      match ReconcileManifest(before, expected, candidate)
      case Ok(manifest) => Some(manifest)
      case Err(_) => before
  }

  /** Redone around any number of crashes, a swap leaves exactly its candidate on its base and on its
      candidate, and any other manifest as it is. */
  lemma {:induction false} ManifestSwapIsExact(current: Option<Manifest>, expected: Option<Manifest>,
                                               candidate: Manifest, times: nat)
    ensures SwapRepeatedly(current, expected, candidate, times)
         == if times > 0 && (current == expected || current == Some(candidate)) then Some(candidate) else current
  {
    if times > 0 { ManifestSwapIsExact(current, expected, candidate, times - 1); }
  }
}
