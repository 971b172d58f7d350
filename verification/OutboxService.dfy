/** The part of the driver that commits runtime events and manifests through the outbox. Each durable
    primitive can fail; a failed one, or a crash, leaves what the earlier ones did. */
module OutboxService {
  import opened Base
  import opened Outbox

  /** Which primitives succeed; a failing publication may have published a part. */
  datatype Faults = Faults(
    persistOk: bool, applyOk: bool, publishOk: bool, part: set<PublicRecord>, acknowledgeOk: bool)

  /** The history grew by one transaction at most: the events of `next` beyond those there were. */
  ghost predicate GrowsBy(before: seq<Transaction>, after: seq<Transaction>, next: seq<RuntimeEvent>,
                          records: set<PublicRecord>)
  {
    || after == before
    || (|EventsOf(before)| < |next|
        && after == before + [Transaction(RuntimeEvents(|EventsOf(before)|, next[|EventsOf(before)|..]), records)]
        && EventsOf(after) == EventsOf(before) + next[|EventsOf(before)|..])
  }

  class PublicationService {
    var log: seq<Line>
    var manifest: Option<Manifest>
    var outbox: seq<Transaction>
    var ledger: seq<Transaction>
    var published: set<PublicRecord>
    ghost var history: seq<Transaction>
    ghost var accepted: Option<Manifest>
    var driver: seq<RuntimeEvent>
    var persisted: nat
    var blocked: bool

    ghost function View(): Disk
      reads this
    {
      Disk(log, manifest, outbox, ledger, published, history, accepted)
    }

    /** The count in memory is that of the log unless runtime events are pending. */
    ghost predicate Valid()
      reads this
    {
      && DiskInv(View())
      && (outbox == [] || outbox[0].mutation.ManifestSwap? ==> persisted == |EventsOf(ledger)|)
    }

    /** Memory equals the log, unless a pending batch is to be reconciled first. */
    ghost predicate Current()
      reads this
    {
      Valid() && (outbox == [] || outbox[0].mutation.ManifestSwap? ==> driver == EventsOf(history))
    }

    /** A store whose run manifest was created before the driver first started. */
    constructor (initial: Manifest)
      ensures Current() && View() == NewDisk(Some(initial)) && driver == [] && persisted == 0
    {
      log, manifest, outbox, ledger, published := [], Some(initial), [], [], {};
      history, accepted := [], Some(initial);
      driver, persisted, blocked := [], 0, false;
    }

    /** read_runtime_events: one pass that checks every batch against the count so far. */
    method ReadRuntimeEvents() returns (r: Result<seq<RuntimeEvent>, Fault>)
      ensures r == ReadEvents(log)
    {
      var events := [];
      for i := 0 to |log|
        invariant ReadEvents(log[..i]) == Ok(events)
      {
        assert log[..i + 1][..i] == log[..i];
        match log[i] {
          case EventLine(event) => events := events + [event];
          case BatchLine(base, batch) =>
            if base != |events| {
              MismatchPersists(log, i + 1);
              return Err(BatchCountMismatch);
            }
            events := events + batch;
        }
      }
      assert log[..|log|] == log;
      return Ok(events);
    }

    /** reconcile_private_transaction on the pending transaction: redo its private half if it is
        missing. Only the write itself can fail. */
    method ReconcilePrivateTransaction(applyOk: bool) returns (r: Result<(), Fault>)
      requires Valid() && outbox != []
      modifies this`log, this`manifest, this`driver, this`persisted
      ensures Valid() && outbox == old(outbox)
      ensures View() == old(View()) || View() == Take(old(View()), Apply)
      ensures r.Ok? ==> View() == Take(old(View()), Apply) && Applied(View(), outbox[0])
      ensures r.Err? ==> r.error == IoError && !applyOk && View() == old(View()) && persisted == old(persisted)
      ensures r.Err? ==> driver == old(driver)
      ensures r.Ok? ==> persisted == |EventsOf(history)|
      ensures r.Ok? && outbox[0].mutation.RuntimeEvents? ==> driver == EventsOf(history)
      ensures r.Ok? && outbox[0].mutation.ManifestSwap? ==> driver == old(driver) && persisted == old(persisted)
    {
      PendingApplies(View());
      HistoryAppend(ledger, outbox[0]);
      assert outbox == [outbox[0]];
      match outbox[0].mutation {
        case RuntimeEvents(base, events) =>
          var current := ReadRuntimeEvents();
          var missing := ReconcileBatch(current.value, base, events);
          if missing.value {
            if !applyOk {
              return Err(IoError);
            }
            log := log + [BatchLine(base, events)];
            ReadAppended(old(log), base, events);
            driver := current.value + events;
          } else {
            driver := current.value;
          }
          persisted := |driver|;
        case ManifestSwap(expected, candidate) =>
          if manifest != Some(candidate) {
            if !applyOk {
              return Err(IoError);
            }
            manifest := Some(candidate);
          }
      }
      return Ok(());
    }

    /** Publishing unions records in; a failure may have published some of them. */
    method PublishTransaction(publishOk: bool, part: set<PublicRecord>) returns (r: Result<(), Fault>)
      requires Valid() && outbox != [] && Applied(View(), outbox[0])
      modifies this`published
      ensures Valid()
      ensures View() == Take(old(View()), Publish(if publishOk then outbox[0].records else part * outbox[0].records))
      ensures r == if publishOk then Ok(()) else Err(IoError)
      ensures Applied(View(), outbox[0]) && (publishOk ==> outbox[0].records <= published)
    {
      PublishKeepsInv(View(), if publishOk then outbox[0].records else part * outbox[0].records);
      published := published + (if publishOk then outbox[0].records else part * outbox[0].records);
      return if publishOk then Ok(()) else Err(IoError);
    }

    /** acknowledge: the pending file is renamed into the ledger. */
    method AcknowledgeTransaction(acknowledgeOk: bool) returns (r: Result<(), Fault>)
      requires Valid() && outbox != [] && Applied(View(), outbox[0]) && outbox[0].records <= published
      requires persisted == |EventsOf(history)|
      modifies this`outbox, this`ledger
      ensures Valid()
      ensures View() == if acknowledgeOk then Take(old(View()), Acknowledge) else old(View())
      ensures r == if acknowledgeOk then Ok(()) else Err(IoError)
      ensures acknowledgeOk ==> outbox == []
    {
      AcknowledgeKeepsInv(View());
      if !acknowledgeOk {
        return Err(IoError);
      }
      assert outbox[1..] == [];
      outbox, ledger := outbox[1..], ledger + [outbox[0]];
      return Ok(());
    }

    /** reconcile_publication_outbox. */
    method ReconcilePublicationOutbox(f: Faults) returns (r: Result<(), Fault>, ghost steps: seq<DiskStep>)
      requires Valid()
      modifies this`log, this`manifest, this`driver, this`persisted, this`published, this`outbox, this`ledger,
               this`blocked
      ensures Valid() && View() == TakeAll(old(View()), steps)
      ensures r.Ok? ==> View() == Recover(old(View())) && outbox == [] && !blocked
      ensures r.Ok? ==> persisted == |EventsOf(old(history))|
      ensures old(outbox) == [] ==> r.Ok? && driver == old(driver) && steps == []
      ensures r.Ok? && old(outbox) != []
              ==> driver == if old(outbox[0].mutation.RuntimeEvents?) then EventsOf(old(history)) else old(driver)
      ensures f.applyOk && f.publishOk && f.acknowledgeOk ==> r.Ok?
      ensures history == old(history)
      ensures old(Current()) ==> Current() && (r.Ok? ==> driver == EventsOf(history))
    {
      hide Take, TakeAll, ReadEvents, EventsOf, RecordsOf, Applied, DiskInv;
      steps := [];
      TakeNothing(View());
      RecoverCompletes(View());
      if outbox == [] {
        blocked := false;
        return Ok(()), steps;
      }
      var applied := ReconcilePrivateTransaction(f.applyOk);
      TakeOneMore(old(View()), [], Apply);
      if applied.Err? {
        return Err(applied.error), steps;
      }
      steps := steps + [Apply];
      ghost var part := if f.publishOk then outbox[0].records else f.part * outbox[0].records;
      TakeOneMore(old(View()), steps, Publish(part));
      steps := steps + [Publish(part)];
      var public := PublishTransaction(f.publishOk, f.part);
      if public.Err? {
        return Err(public.error), steps;
      }
      TakeOneMore(old(View()), steps, Acknowledge);
      var acknowledged := AcknowledgeTransaction(f.acknowledgeOk);
      if acknowledged.Err? {
        return Err(acknowledged.error), steps;
      }
      steps := steps + [Acknowledge];
      blocked := false;
      return Ok(()), steps;
    }

    /** persist_pending: refused while anything is pending. */
    method PersistPending(t: Transaction, persistOk: bool) returns (r: Result<(), Fault>)
      requires Valid() && (outbox == [] ==> BuiltOn(View(), t))
      modifies this`outbox, this`history, this`accepted
      ensures Valid()
      ensures r == if old(outbox) != [] then Err(Blocked) else if persistOk then Ok(()) else Err(IoError)
      ensures accepted == if r.Ok? && t.mutation.ManifestSwap? then Some(t.mutation.candidate) else old(accepted)
      ensures View() == if r.Ok? then Take(old(View()), Persist(t)) else old(View())
      ensures r.Ok? ==> outbox == [t] && history == old(history) + [t]
    {
      if outbox != [] {
        return Err(Blocked);
      }
      if !persistOk {
        return Err(IoError);
      }
      TakeKeepsInv(View(), Persist(t));
      outbox, history := [t], history + [t];
      accepted := if t.mutation.ManifestSwap? then Some(t.mutation.candidate) else accepted;
      return Ok(());
    }

    /** append_private_runtime_transaction: the first attempt appends without reading the log back. */
    method AppendPrivateRuntimeTransaction(appendOk: bool) returns (r: Result<(), Fault>)
      requires Valid() && outbox != [] && outbox[0].mutation.RuntimeEvents?
      requires ReadEvents(log) == Ok(EventsOf(ledger))
      modifies this`log
      ensures Valid()
      ensures View() == if appendOk then Take(old(View()), Apply) else old(View())
      ensures r.Ok? <==> appendOk
      ensures appendOk ==> Applied(View(), outbox[0])
    {
      PendingApplies(View());
      if !appendOk {
        return Err(IoError);
      }
      log := log + [BatchLine(outbox[0].mutation.base, outbox[0].mutation.events)];
      return Ok(());
    }

    /** What follows a private half that is done: publish, then acknowledge. */
    method PublishAndAcknowledge(f: Faults) returns (r: Result<(), Fault>, ghost steps: seq<DiskStep>)
      requires Valid() && outbox != [] && Applied(View(), outbox[0]) && persisted == |EventsOf(history)|
      modifies this`published, this`outbox, this`ledger
      ensures Valid() && View() == TakeAll(old(View()), steps)
      ensures history == old(history)
      ensures r.Ok? <==> f.publishOk && f.acknowledgeOk
      ensures r.Err? ==> r.error == IoError
      ensures outbox == if r.Ok? then [] else old(outbox)
    {
      hide Take, TakeAll, ReadEvents, EventsOf, RecordsOf, Applied, DiskInv;
      TakeNothing(View());
      ghost var part := if f.publishOk then outbox[0].records else f.part * outbox[0].records;
      TakeOneMore(old(View()), [], Publish(part));
      steps := [] + [Publish(part)];
      var public := PublishTransaction(f.publishOk, f.part);
      if public.Err? {
        return Err(public.error), steps;
      }
      TakeOneMore(old(View()), steps, Acknowledge);
      var acknowledged := AcknowledgeTransaction(f.acknowledgeOk);
      if acknowledged.Err? {
        return Err(acknowledged.error), steps;
      }
      return Ok(()), steps + [Acknowledge];
    }

    /** commit_runtime_with_publication. Memory equals the log afterwards exactly when the driver that
        was handed in extends the log as the reconciliation left it. */
    method CommitRuntime(next: seq<RuntimeEvent>, records: set<PublicRecord>, before: Faults, f: Faults)
      returns (r: Result<(), Fault>, ghost steps: seq<DiskStep>)
      requires Valid()
      modifies this
      ensures Valid() && View() == TakeAll(old(View()), steps)
      ensures r.Ok? ==> outbox == [] && !blocked && persisted == |EventsOf(history)|
      ensures r.Ok? ==> (driver == EventsOf(history) <==> EventsOf(old(history)) <= next)
      ensures r.Ok? && EventsOf(old(history)) <= next ==> EventsOf(history) == next
      ensures GrowsBy(old(history), history, next, records)
      ensures f == before && f.persistOk && f.applyOk && f.publishOk && f.acknowledgeOk ==> r.Ok?
      ensures old(Current()) && EventsOf(old(history)) <= next ==> Current()
    {
      hide Take, TakeAll, DiskInv, EventsOf, Recover, ReadEvents, RecordsOf, Applied;
      RecoverCompletes(View());
      var reconciled;
      reconciled, steps := ReconcilePublicationOutbox(before);
      if reconciled.Err? {
        return Err(reconciled.error), steps;
      }
      if persisted >= |next| {
        driver := next;
        return Ok(()), steps;
      }
      ghost var more;
      r, more := CommitBatch(next, records, f);
      TakeAllAppend(old(View()), steps, more);
      steps := steps + more;
    }

    /** A mutating request: reconcile first, let the runtime extend the reconciled driver, commit. So the
        new driver always extends the log, and memory equals the log after every success. */
    method HandleMutation(more: seq<RuntimeEvent>, records: set<PublicRecord>, first: Faults, before: Faults, f: Faults)
      returns (r: Result<(), Fault>, ghost steps: seq<DiskStep>)
      requires Current()
      modifies this
      ensures Current() && View() == TakeAll(old(View()), steps)
      ensures r.Ok? ==> driver == EventsOf(history) == EventsOf(old(history)) + more && persisted == |driver|
      ensures r.Ok? ==> outbox == [] && !blocked
    {
      hide Take, TakeAll, DiskInv, EventsOf;
      var reconciled;
      reconciled, steps := ReconcilePublicationOutbox(first);
      if reconciled.Err? {
        return Err(reconciled.error), steps;
      }
      ghost var rest;
      r, rest := CommitRuntime(driver + more, records, before, f);
      TakeAllAppend(old(View()), steps, rest);
      steps := steps + rest;
    }

    /** The rest of a commit, with nothing pending and new events to write. */
    method CommitBatch(next: seq<RuntimeEvent>, records: set<PublicRecord>, f: Faults)
      returns (r: Result<(), Fault>, ghost steps: seq<DiskStep>)
      requires Valid() && outbox == [] && persisted < |next| && !blocked
      modifies this
      ensures Valid() && View() == TakeAll(old(View()), steps)
      ensures GrowsBy(old(history), history, next, records)
      ensures r.Ok? <==> f.persistOk && f.applyOk && f.publishOk && f.acknowledgeOk
      ensures r.Ok? ==> outbox == [] && !blocked && driver == next && persisted == |EventsOf(history)|
      ensures r.Ok? ==> history != old(history)
      ensures r.Err? ==> || (outbox == [] && history == old(history) && driver == old(driver))
                         || (outbox != [] && outbox[0].mutation.RuntimeEvents?)
    {
      hide Take, TakeAll, RecordsOf;
      TakeNothing(View());
      steps := [];
      assert ledger + outbox == ledger;
      var t := Transaction(RuntimeEvents(persisted, next[persisted..]), records);
      TakeOneMore(old(View()), steps, Persist(t));
      HistoryAppend(history, t);
      var pending := PersistPending(t, f.persistOk);
      if pending.Err? {
        return Err(pending.error), steps;
      }
      steps := steps + [Persist(t)];
      TakeOneMore(old(View()), steps, Apply);
      PersistKeepsPrivate(old(View()), t);
      var appended := AppendPrivateRuntimeTransaction(f.applyOk);
      if appended.Err? {
        blocked := true;
        return Err(appended.error), steps;
      }
      steps := steps + [Apply];
      ApplyKeepsRest(TakeAll(old(View()), steps[..1]));
      persisted, driver := |next|, next;
      ghost var more;
      r, more := PublishAndAcknowledge(f);
      TakeAllAppend(old(View()), steps, more);
      steps := steps + more;
      if r.Err? {
        blocked := true;
      }
    }

    /** load, in a new process: what memory held is gone, so the driver's events come from the log once
        the pending private half is redone, and the rest of the pending transaction follows. */
    method Load(f: Faults) returns (r: Result<(), Fault>, ghost steps: seq<DiskStep>)
      requires DiskInv(View())
      modifies this
      ensures DiskInv(View()) && View() == TakeAll(old(View()), steps) && history == old(history)
      ensures r.Ok? ==> Current() && outbox == [] && !blocked
      ensures r.Ok? ==> driver == EventsOf(history) && persisted == |driver|
      ensures r.Ok? ==> published == RecordsOf(history) && manifest == old(accepted) == accepted
      ensures f.applyOk && f.publishOk && f.acknowledgeOk ==> r.Ok?
    {
      hide Take, TakeAll, RecordsOf, EventsOf;
      TakeNothing(View());
      steps := [];
      LogIsReadable(View());
      var current := ReadRuntimeEvents();
      driver, persisted, blocked := current.value, |current.value|, false;
      if outbox != [] {
        TakeOneMore(View(), steps, Apply);
        var applied := ReconcilePrivateTransaction(f.applyOk);
        if applied.Err? {
          return Err(applied.error), steps;
        }
        ApplyKeepsRest(old(View()));
        steps := steps + [Apply];
      }
      RecoverCompletes(View());
      ghost var more;
      r, more := ReconcilePublicationOutbox(f);
      TakeAllAppend(old(View()), steps, more);
      steps := steps + more;
    }

    /** write_manifest_with_publication: a manifest without public records is replaced at once, one with
        records goes through the outbox; both are refused while a transaction is pending. */
    method WriteManifestWithPublication(candidate: Manifest, records: set<PublicRecord>, f: Faults)
      returns (r: Result<(), Fault>, ghost steps: seq<DiskStep>)
      requires Valid() && manifest.Some?
      modifies this`log, this`manifest, this`outbox, this`ledger, this`published, this`history, this`accepted,
               this`driver, this`persisted
      ensures Valid() && View() == TakeAll(old(View()), steps)
      ensures r == Err(Blocked) <==> old(outbox) != []
      ensures old(outbox) != [] ==> View() == old(View())
      ensures r.Ok? ==> outbox == [] && manifest == accepted == Some(candidate)
      ensures EventsOf(history) == EventsOf(old(history)) && driver == old(driver)
      ensures accepted == old(accepted) || accepted == Some(candidate)
      ensures old(outbox) == [] && f.persistOk && f.applyOk && f.publishOk && f.acknowledgeOk ==> r.Ok?
      ensures old(Current()) ==> Current()
    {
      hide Take, TakeAll, RecordsOf, EventsOf, DiskInv;
      TakeNothing(View());
      steps := [];
      if outbox != [] {
        return Err(Blocked), steps;
      }
      if records == {} {
        TakeOneMore(View(), steps, WriteManifest(candidate));
        r := ReplaceManifest(candidate, f.applyOk, f.publishOk);
        return r, if f.applyOk then steps + [WriteManifest(candidate)] else steps;
      }
      r, steps := CommitManifest(candidate, records, f);
    }

    /** Its outbox path. */
    method CommitManifest(candidate: Manifest, records: set<PublicRecord>, f: Faults)
      returns (r: Result<(), Fault>, ghost steps: seq<DiskStep>)
      requires Valid() && outbox == [] && manifest.Some?
      modifies this`log, this`manifest, this`outbox, this`ledger, this`published, this`history, this`accepted,
               this`driver, this`persisted
      ensures Valid() && View() == TakeAll(old(View()), steps)
      ensures r.Err? ==> r.error == IoError
      ensures r.Ok? ==> outbox == [] && manifest == accepted == Some(candidate)
      ensures EventsOf(history) == EventsOf(old(history)) && driver == old(driver)
      ensures accepted == old(accepted) || accepted == Some(candidate)
      ensures outbox == [] || outbox[0].mutation.ManifestSwap?
      ensures f.persistOk && f.applyOk && f.publishOk && f.acknowledgeOk ==> r.Ok?
    {
      hide Take, TakeAll, RecordsOf, EventsOf, DiskInv;
      TakeNothing(View());
      steps := [];
      var t := Transaction(ManifestSwap(manifest, candidate), records);
      TakeOneMore(View(), steps, Persist(t));
      HistoryAppend(history, t);
      var pending := PersistPending(t, f.persistOk);
      if pending.Err? {
        return Err(pending.error), steps;
      }
      steps := steps + [Persist(t)];
      TakeOneMore(old(View()), steps, Apply);
      var applied := ReconcilePrivateTransaction(f.applyOk);
      if applied.Err? {
        return Err(applied.error), steps;
      }
      steps := steps + [Apply];
      ghost var more;
      r, more := PublishAndAcknowledge(f);
      TakeAllAppend(old(View()), steps, more);
      steps := steps + more;
    }

    /** The direct path: the private manifest is replaced, then the public projection is written, which
        can fail on its own. */
    method ReplaceManifest(candidate: Manifest, writeOk: bool, projectOk: bool) returns (r: Result<(), Fault>)
      requires Valid() && outbox == [] && manifest.Some?
      modifies this`manifest, this`accepted
      ensures Valid()
      ensures View() == if writeOk then Take(old(View()), WriteManifest(candidate)) else old(View())
      ensures r == if writeOk && projectOk then Ok(()) else Err(IoError)
      ensures writeOk ==> manifest == accepted == Some(candidate)
    {
      if !writeOk {
        return Err(IoError);
      }
      manifest, accepted := Some(candidate), Some(candidate);
      return if projectOk then Ok(()) else Err(IoError);
    }
  }

  lemma {:induction false} MismatchPersists(lines: seq<Line>, n: nat)
    requires n <= |lines| && ReadEvents(lines[..n]) == Err(BatchCountMismatch)
    ensures ReadEvents(lines) == Err(BatchCountMismatch)
  {
    if n == |lines| {
      assert lines[..n] == lines;
    } else {
      assert lines[..|lines| - 1][..n] == lines[..n];
      MismatchPersists(lines[..|lines| - 1], n);
    }
  }
}
