/** The method that carries out a pane cleanup, on the state it changes. */
module CleanupService {
  import opened Base
  import opened DriverLog
  import opened Cleanup

  class PaneCleanup {
    var owned: Option<Pane>
    var pending: Option<CleanupIntent>
    var log: seq<LogEntry>
    var asset: Option<Asset>
    var alive: bool
    var snapshot: Option<string>
    var completion: bool
    var capture: bool
    var captureLogged: bool
    var bound: bool
    ghost var killed: Option<string>
    /** How many more effects succeed before one fails or the process dies. */
    var budget: nat
    ghost var performed: seq<Effect>

    ghost function View(): Store
      reads this
    {
      Store(owned, pending, log, asset, alive, snapshot, completion, capture, captureLogged, bound, killed)
    }

    constructor (pane: Pane, intent: CleanupIntent, asset: Option<Asset>, capture: bool, budget: nat)
      ensures View() == Store(Some(pane), Some(intent), [], asset, true, None, false, capture, capture, false, None)
      ensures this.budget == budget && performed == []
    {
      owned, pending, log, this.asset := Some(pane), Some(intent), [], asset;
      alive, snapshot, completion, bound := true, None, false, false;
      this.capture, captureLogged := capture, capture;
      killed, this.budget, performed := None, budget, [];
    }

    /** One effect, unless the budget is spent. */
    method Carry(effect: Effect) returns (ok: bool)
      modifies this
      ensures ok <==> old(budget) > 0
      ensures ok ==> budget == old(budget) - 1 && performed == old(performed) + [effect]
      ensures !ok ==> budget == 0 && performed == old(performed)
      ensures View() == if ok then Do(old(View()), effect) else old(View())
    {
      if budget == 0 {
        return false;
      }
      budget, performed, ok := budget - 1, performed + [effect], true;
      Happen(effect);
    }

    method Happen(effect: Effect)
      modifies this`owned, this`pending, this`log, this`asset, this`alive, this`snapshot, this`completion, this`capture,
               this`captureLogged, this`bound, this`killed
      ensures View() == Do(old(View()), effect)
    {
      match effect {
        case SaveSnapshot(text) => snapshot := Some(text);
        case Kill(text) => alive, killed := false, Some(text);
        case CompletionAppears => completion := true;
        case RecordCapture(phase) =>
          asset := if asset.None? then None
                   else Some(asset.value.(phase := phase, preservation := phase, captureComplete := phase.Complete?));
        case ForgetCapture => capture := false;
        case MarkCleanup(status, error) =>
          asset := if asset.None? then None else Some(asset.value.(cleanup := status, cleanupError := error));
        case RemoveCompletion => completion := false;
        case Release => owned, log, capture, captureLogged := None, log + [Released], false, false;
        case Retire => bound := false;
        case LogReceipt(intent, error) => pending, log := None, log + [Receipt(intent, error)];
      }
    }

    /** What is left of the course to perform, and what has been. */
    ghost predicate Along(c: Course, rest: seq<Effect>)
      reads this
    {
      && c.effects == performed + rest
      && View() == Perform(c.start, performed)
      && |performed| + budget == c.budget
    }

    /** The course broke off where the budget ended. */
    ghost predicate CutShort(c: Course)
      reads this
    {
      && c.budget < |c.effects|
      && performed == c.effects[..c.budget]
      && View() == Perform(c.start, performed)
    }

    method Step(effect: Effect, ghost c: Course, ghost rest: seq<Effect>) returns (ok: bool)
      requires Along(c, [effect] + rest)
      modifies this
      ensures ok ==> Along(c, rest) && View() == Do(old(View()), effect)
      ensures !ok ==> CutShort(c)
    {
      PerformAppend(c.start, performed, [effect]);
      PerformOne(View(), effect);
      ok := Carry(effect);
      assert c.effects == old(performed) + [effect] + rest;
    }

    method StepIf(happens: bool, effect: Effect, ghost c: Course, ghost rest: seq<Effect>) returns (ok: bool)
      requires Along(c, (if happens then [effect] else []) + rest)
      modifies this
      ensures ok ==> Along(c, rest) && View() == if happens then Do(old(View()), effect) else old(View())
      ensures !ok ==> CutShort(c)
    {
      if happens {
        ok := Step(effect, c, rest);
      } else {
        assert [] + rest == rest;
        ok := true;
      }
    }

    /** finish_tmux_pane_cleanup, after the participant's binding is retired. */
    method FinishCleanup(intent: CleanupIntent, error: Option<string>, ghost c: Course) returns (ok: bool)
      requires Along(c, Finishing(View(), intent, error))
      modifies this
      ensures if ok then Along(c, []) else CutShort(c)
    {
      ok := StepIf(bound, Retire, c, [LogReceipt(intent, error)]);
      if ok {
        assert [LogReceipt(intent, error)] + [] == [LogReceipt(intent, error)];
        ok := Step(LogReceipt(intent, error), c, []);
      }
    }

    /** From marking the resource cleanup to the receipt. */
    method Close(intent: CleanupIntent, mark: bool, verified: bool, error: Option<string>, ghost c: Course)
      returns (ok: bool)
      requires Along(c, Closing(View(), intent, mark, verified, error))
      modifies this
      ensures if ok then Along(c, []) else CutShort(c)
    {
      ghost var rest := [Release] + Finishing(View(), intent, error);
      ok := StepIf(mark, MarkCleanup(CleanupComplete, error), c, (if verified then [RemoveCompletion] else []) + rest);
      if !ok { return; }
      ok := StepIf(verified, RemoveCompletion, c, rest);
      if !ok { return; }
      ok := Step(Release, c, Finishing(View(), intent, error));
      if !ok { return; }
      ok := FinishCleanup(intent, error, c);
    }

    method RecordFinalCapture(captured: Option<string>, phase: Phase, ghost c: Course, ghost rest: seq<Effect>)
      returns (ok: bool)
      requires Along(c, [SaveSnapshot(captured.GetOr(""))] + ([RecordCapture(phase)] + ([ForgetCapture] + rest)))
      modifies this
      ensures if ok then Along(c, rest) && bound == old(bound) else CutShort(c)
    {
      ok := Step(SaveSnapshot(captured.GetOr("")), c, [RecordCapture(phase)] + ([ForgetCapture] + rest));
      if !ok { return; }
      ok := Step(RecordCapture(phase), c, [ForgetCapture] + rest);
      if !ok { return; }
      ok := Step(ForgetCapture, c, rest);
    }

    /** Snapshot, then kill; the snapshot only when the manifest knows the activation. */
    method SnapshotAndKill(known: bool, w: World, ghost c: Course, ghost rest: seq<Effect>) returns (ok: bool)
      requires Along(c, (if known then [SaveSnapshot(w.text)] else []) + ([Kill(w.text)] + rest))
      modifies this
      ensures if ok then Along(c, rest) else CutShort(c)
      ensures ok ==> bound == old(bound) && completion == old(completion) && capture == old(capture)
    {
      ok := StepIf(known, SaveSnapshot(w.text), c, [Kill(w.text)] + rest);
      if ok { ok := Step(Kill(w.text), c, rest); }
    }

    /** complete_tmux_pane_cleanup: the effects of its plan in order, as far as they go, and the outcome
        of the plan when all of them happen. */
    method CompleteTmuxPaneCleanup(intent: CleanupIntent, w: World) returns (r: Result<Option<string>, Fault>)
      requires performed == []
      modifies this
      ensures var plan := PlanOf(old(View()), intent, w);
              var n := if |plan.effects| <= old(budget) then |plan.effects| else old(budget);
              && performed == plan.effects[..n]
              && View() == Perform(old(View()), performed)
              && (n == |plan.effects| ==> r == plan.outcome)
              && (n < |plan.effects| ==> r.Err?)
    {
      hide Perform, Closing, Settling, Finishing;
      ghost var start := View();
      ghost var c := Course(start, budget, PlanOf(start, intent, w).effects);
      PerformNone(start);
      if intent.generation != intent.pane.generation {
        return Err(WrongRun);
      }
      if owned.Some? && owned.value != intent.pane {
        return Err(DifferentAllocation);
      }
      var existing := if asset.Some? && asset.value.generation == intent.generation then asset else None;
      var recorded := existing.Some? && existing.value.cleanup == CleanupComplete;
      if owned.None? {
        if existing.Some? && !recorded {
          return Err(IncompleteAssets);
        }
        var error := if existing.Some? then existing.value.cleanupError else None;
        var done := FinishCleanup(intent, error, c);
        return if done then Ok(error) else Err(Interrupted);
      }
      var published := capture && completion;
      if recorded {
        var done := Close(intent, false, published, existing.value.cleanupError, c);
        return if done then Ok(existing.value.cleanupError) else Err(Interrupted);
      }
      if alive && !published && w.killError.Some? {
        r := FailToKill(existing.Some?, w, c);
        return;
      }
      r := KillAndPreserve(existing, published, intent, w, c, start);
    }

    /** The capture of an unfinished activation: wait for the helper, then record how it ended. */
    method SettleCapture(known: Asset, captured: Option<string>, intent: CleanupIntent, w: World, ghost c: Course,
                         ghost start: Store)
      returns (r: Result<Option<string>, Fault>)
      requires start.bound == bound && start.capture == capture && start.completion == completion
      requires var verdict := Settle(start, known, captured, w);
               Along(c, Waiting(start, w)
                        + if verdict.Completes? && !CanComplete(known) then []
                          else Settling(start, intent, verdict, captured, w))
      modifies this
      ensures CutShort(c) || Along(c, [])
      ensures CutShort(c) ==> r.Err?
      ensures var verdict := Settle(start, known, captured, w);
              !CutShort(c) ==> r == if verdict.Completes? && !CanComplete(known) then Err(CannotComplete)
                                    else Ok(if verdict.Completes? then None else Some(verdict.error))
    {
      hide Perform, Recording, Closing;
      var piped, published := capture, completion;
      var waits := piped && !published && w.completes;
      var verified := piped && (published || w.completes);
      ghost var verdict := Settle(start, known, captured, w);
      ghost var settling := Settling(start, intent, verdict, captured, w);
      ghost var rest := if verdict.Completes? && !CanComplete(known) then [] else settling;
      var ok := StepIf(waits, CompletionAppears, c, rest);
      if !ok { return Err(Interrupted); }
      if piped && verified && captured.Some? && known.acknowledged {
        if !CanComplete(known) {
          return Err(CannotComplete);
        }
        SameClosing(start, View(), intent, true, verified, None);
        r := RecordAndClose(captured, Completes, intent, verified, c);
      } else {
        var error := if piped && !verified then w.waitError
                     else if captured.Some? then PIPE_UNAVAILABLE
                     else SNAPSHOT_UNAVAILABLE;
        SameClosing(start, View(), intent, true, verified, Some(error));
        r := RecordAndClose(captured, Fails(error), intent, verified, c);
      }
    }

    method RecordAndClose(captured: Option<string>, verdict: Verdict, intent: CleanupIntent, verified: bool,
                          ghost c: Course)
      returns (r: Result<Option<string>, Fault>)
      requires var error := if verdict.Completes? then None else Some(verdict.error);
               Along(c, Recording(verdict, captured) + Closing(View(), intent, true, verified, error))
      modifies this
      ensures CutShort(c) || Along(c, [])
      ensures r == if CutShort(c) then Err(Interrupted)
                   else Ok(if verdict.Completes? then None else Some(verdict.error))
    {
      hide Perform, Closing;
      var error := if verdict.Completes? then None else Some(verdict.error);
      var phase := if verdict.Completes? then Complete else Failed;
      ghost var closing := Closing(View(), intent, true, verified, error);
      assert Recording(verdict, captured) + closing
          == [SaveSnapshot(captured.GetOr(""))] + ([RecordCapture(phase)] + ([ForgetCapture] + closing));
      ghost var before := View();
      var ok := RecordFinalCapture(captured, phase, c, closing);
      if !ok { return Err(Interrupted); }
      SameClosing(before, View(), intent, true, verified, error);
      ok := Close(intent, true, verified, error, c);
      return if ok then Ok(error) else Err(Interrupted);
    }
  
    /** The kill fails after its snapshot: the failure is recorded if it can be. */
    method FailToKill(known: bool, w: World, ghost c: Course) returns (r: Result<Option<string>, Fault>)
      requires w.killError.Some?
      requires Along(c, if known then [SaveSnapshot(w.text)] + [MarkCleanup(CleanupFailed, w.killError)] else [])
      modifies this
      ensures CutShort(c) || Along(c, [])
      ensures r.Err? && (!CutShort(c) ==> r.error == KillFailed)
    {
      if known {
        var ok := Step(SaveSnapshot(w.text), c, [MarkCleanup(CleanupFailed, w.killError)]);
        if !ok { return Err(Interrupted); }
        assert [MarkCleanup(CleanupFailed, w.killError)] + [] == [MarkCleanup(CleanupFailed, w.killError)];
        ok := Step(MarkCleanup(CleanupFailed, w.killError), c, []);
      }
      return Err(KillFailed);
    }

    /** From the probe of the pane on, when the cleanup is not recorded and the pane can be killed. */
    method KillAndPreserve(existing: Option<Asset>, published: bool, intent: CleanupIntent, w: World, ghost c: Course,
                           ghost start: Store)
      returns (r: Result<Option<string>, Fault>)
      requires View() == start && owned == Some(intent.pane) && intent.generation == intent.pane.generation
      requires existing == Existing(start, intent) && !Recorded(existing) && published == (capture && completion)
      requires alive && !published ==> w.killError.None?
      requires Along(c, PlanOf(start, intent, w).effects)
      modifies this
      ensures CutShort(c) || Along(c, [])
      ensures CutShort(c) ==> r.Err?
      ensures !CutShort(c) ==> r == PlanOf(start, intent, w).outcome
    {
      hide Perform, Closing, Settling, Settle;
      var kills := alive && !published;
      var captured := if kills then Some(w.text) else if existing.Some? then snapshot else None;
      ghost var rest :=
        if !Unfinished(existing) then Closing(start, intent, existing.Some?, published, None)
        else
          var verdict := Settle(start, existing.value, captured, w);
          Waiting(start, w) + if verdict.Completes? && !CanComplete(existing.value) then []
                              else Settling(start, intent, verdict, captured, w);
      assert PlanOf(start, intent, w).effects == Opening(start, intent, w) + rest;
      if kills {
        assert Opening(start, intent, w) + rest
            == (if existing.Some? then [SaveSnapshot(w.text)] else []) + ([Kill(w.text)] + rest);
        var ok := SnapshotAndKill(existing.Some?, w, c, rest);
        if !ok { return Err(Interrupted); }
      } else {
        assert [] + rest == rest;
      }
      if Unfinished(existing) {
        r := SettleCapture(existing.value, captured, intent, w, c, start);
      } else {
        SameClosing(start, View(), intent, existing.Some?, published, None);
        var done := Close(intent, existing.Some?, published, None, c);
        return if done then Ok(None) else Err(Interrupted);
      }
    }
  }

  lemma SameClosing(s: Store, t: Store, intent: CleanupIntent, mark: bool, verified: bool, error: Option<string>)
    requires s.bound == t.bound
    ensures Closing(s, intent, mark, verified, error) == Closing(t, intent, mark, verified, error)
  {
  }

  /** An attempt: where it starts, how many effects will succeed, and the effects that it is to perform. */
  datatype Course = Course(start: Store, budget: nat, effects: seq<Effect>)
}
