/** Runs of cleanup attempts, each cut off anywhere, between crashes and changes in the world outside. */
module CleanupRuns {
  import opened Base
  import opened DriverLog
  import opened Cleanup

  /** An attempt whose first `n` effects happen; a crash; what the pane and the helper do outside; and
      what else the driver does to the same activation while the intent is pending: it publishes a new
      pane, starts its capture, or empties the pane map without a release, when a binding is replaced or
      a restart replays one that moved. */
  datatype Step =
    | Attempt(w: World, n: nat)
    | Crash
    | PaneDies
    | HelperPublishes
    | Reallocate(pane: Pane)
    | StartCapture
    | Unbind

  /** The activation owns a pane of a later allocation than the intent's. */
  predicate OwnsLater(s: Store, intent: CleanupIntent) {
    s.owned.Some? && s.owned.value.generation > intent.generation
  }

  function Take(s: Store, intent: CleanupIntent, step: Step): Store {
    match step
    case Attempt(w, n) =>
      if s.pending != Some(intent) then s
      else var effects := PlanOf(s, intent, w).effects; Perform(s, if n < |effects| then effects[..n] else effects)
    case Crash => Restart(s)
    case PaneDies => s.(alive := false)
    case HelperPublishes => if s.alive then s else s.(completion := true)
    case Reallocate(pane) => if CanReallocate(s, intent, step) then s.(owned := Some(pane)) else s
    case StartCapture =>
      if OwnsLater(s, intent) then s.(asset := Some(NewAsset(s.owned.value.generation))) else s
    case Unbind => s.(owned := None)
  }

  /** Only an activation without a pane is given one, and of a later generation. */
  predicate CanReallocate(s: Store, intent: CleanupIntent, step: Step) {
    step.Reallocate? && s.owned == None && step.pane.generation > intent.generation
  }

  function NewAsset(generation: nat): Asset {
    Asset(generation, Starting, Starting, false, false, CleanupPending, None)
  }

  function TakeAll(s: Store, intent: CleanupIntent, steps: seq<Step>): Store {
    if steps == [] then s else Take(TakeAll(s, intent, steps[..|steps| - 1]), intent, steps[|steps| - 1])
  }

  /** Where a cleanup begins: the intent is logged for the pane that is owned. */
  ghost predicate Begun(s: Store, intent: CleanupIntent) {
    && intent.generation == intent.pane.generation
    && s.pending == Some(intent) && s.owned == Some(intent.pane)
    && s.log == [] && s.killed == None && !Recorded(Existing(s, intent))
    && (s.completion ==> !s.alive)
    && (s.capture ==> s.captureLogged)
  }

  function ErrorOf(s: Store, intent: CleanupIntent): Option<string> {
    if Existing(s, intent).Some? then Existing(s, intent).value.cleanupError else None
  }

  /** At most a release, then at most the receipt; the receipt names the intent and the error that the
      manifest records. */
  ghost predicate LogMatches(s: Store, intent: CleanupIntent) {
    if s.pending.Some? then s.log == [] || s.log == [Released]
    else
      && s.log != []
      && var last := s.log[|s.log| - 1];
         && last.Receipt? && last.intent == intent
         && (Existing(s, intent).Some? ==> last.error == ErrorOf(s, intent))
         && (s.log == [last] || s.log == [Released, last])
  }

  /** The pane was released by an event, not dropped with the pane map. */
  predicate WasReleased(s: Store) {
    s.log != [] && s.log[0].Released?
  }

  ghost predicate Inv(s: Store, intent: CleanupIntent) {
    && intent.generation == intent.pane.generation
    && (s.pending == Some(intent) || s.pending == None)
    && (s.owned == Some(intent.pane) || s.owned == None || OwnsLater(s, intent))
    && (s.owned == Some(intent.pane) ==> s.log == [])
    && LogMatches(s, intent)
    && (s.log != [] && Existing(s, intent).Some? ==> Recorded(Existing(s, intent)))
    && (s.killed.Some? || WasReleased(s) || Recorded(Existing(s, intent)) ==> !s.alive)
    && (s.killed.Some? && Existing(s, intent).Some? ==> s.snapshot == s.killed)
    && (s.completion ==> !s.alive)
    && (s.capture ==> s.captureLogged)
  }

  /** The capture of a pane that was capturing when the cleanup began: it still is, or its end is
      recorded, a failed one along with a snapshot. */
  predicate Sound(s: Store, intent: CleanupIntent) {
    Existing(s, intent).Some? ==>
      var asset := Existing(s, intent).value;
      && asset.acknowledged
      && (CanComplete(asset)
          || (asset.phase == Complete && asset.captureComplete)
          || (asset.phase == Failed && s.snapshot.Some?))
  }

  /** When an effect keeps the invariant. */
  ghost predicate Safe(s: Store, intent: CleanupIntent, effect: Effect) {
    match effect
    case SaveSnapshot(text) => s.killed.Some? && Existing(s, intent).Some? ==> s.killed == Some(text)
    case Kill(text) => s.owned == Some(intent.pane) && (Existing(s, intent).Some? ==> s.snapshot == Some(text))
    case CompletionAppears => !s.alive
    case RecordCapture(phase) => s.snapshot.Some? && (phase == Complete || phase == Failed)
    case MarkCleanup(status, _) => s.owned == Some(intent.pane) && (status == CleanupComplete ==> !s.alive)
    case Release =>
      && s.owned == Some(intent.pane) && s.pending.Some? && !s.alive
      && (Existing(s, intent).Some? ==> Recorded(Existing(s, intent)))
    case LogReceipt(logged, error) =>
      && s.owned.None? && s.pending.Some? && logged == intent && error == ErrorOf(s, intent)
      && (Existing(s, intent).Some? ==> Recorded(Existing(s, intent)))
    case _ => true
  }

  ghost predicate AllSafe(s: Store, intent: CleanupIntent, effects: seq<Effect>) {
    effects == []
    || (AllSafe(s, intent, effects[..|effects| - 1])
        && Safe(Perform(s, effects[..|effects| - 1]), intent, effects[|effects| - 1]))
  }

  lemma SafeKeepsInv(s: Store, intent: CleanupIntent, effect: Effect)
    requires Inv(s, intent) && Safe(s, intent, effect)
    ensures Inv(Do(s, effect), intent)
  {
    hide Inv, Safe, Do;
    match effect {
      case RecordCapture(phase) => SafeAssetKeepsInv(s, intent, effect);
      case MarkCleanup(status, error) => SafeAssetKeepsInv(s, intent, effect);
      case Release => SafeLogKeepsInv(s, intent, effect);
      case LogReceipt(logged, error) => SafeLogKeepsInv(s, intent, effect);
      case _ => SafePaneKeepsInv(s, intent, effect);
    }
  }

  lemma SafeAssetKeepsInv(s: Store, intent: CleanupIntent, effect: Effect)
    requires Inv(s, intent) && Safe(s, intent, effect) && (effect.RecordCapture? || effect.MarkCleanup?)
    ensures Inv(Do(s, effect), intent)
  {
  }

  lemma SafeLogKeepsInv(s: Store, intent: CleanupIntent, effect: Effect)
    requires Inv(s, intent) && Safe(s, intent, effect) && (effect.Release? || effect.LogReceipt?)
    ensures Inv(Do(s, effect), intent)
  {
  }

  lemma SafePaneKeepsInv(s: Store, intent: CleanupIntent, effect: Effect)
    requires Inv(s, intent) && Safe(s, intent, effect)
    requires !effect.RecordCapture? && !effect.MarkCleanup? && !effect.Release? && !effect.LogReceipt?
    ensures Inv(Do(s, effect), intent)
  {
  }

  lemma SafeKeepsSound(s: Store, intent: CleanupIntent, effect: Effect)
    requires Sound(s, intent) && Safe(s, intent, effect)
    ensures Sound(Do(s, effect), intent)
  {
  }

  lemma {:induction false} AllSafeKeepsInv(s: Store, intent: CleanupIntent, effects: seq<Effect>, n: nat)
    requires Inv(s, intent) && AllSafe(s, intent, effects) && n <= |effects|
    ensures Inv(Perform(s, effects[..n]), intent)
    ensures Sound(s, intent) ==> Sound(Perform(s, effects[..n]), intent)
  {
    if n < |effects| {
      AllSafeKeepsInv(s, intent, effects[..|effects| - 1], n);
      assert effects[..|effects| - 1][..n] == effects[..n];
    } else {
      assert effects[..n] == effects;
      if n == 0 {
        PerformNone(s);
      } else {
        var before := effects[..n - 1];
        AllSafeKeepsInv(s, intent, before, n - 1);
        assert before[..n - 1] == before;
        SafeKeepsInv(Perform(s, before), intent, effects[n - 1]);
        if Sound(s, intent) { SafeKeepsSound(Perform(s, before), intent, effects[n - 1]); }
      }
    }
  }

  lemma {:induction false} SafeAt(s: Store, intent: CleanupIntent, effects: seq<Effect>, n: nat)
    requires AllSafe(s, intent, effects) && n < |effects|
    ensures Safe(Perform(s, effects[..n]), intent, effects[n])
  {
    if n < |effects| - 1 {
      SafeAt(s, intent, effects[..|effects| - 1], n);
      assert effects[..|effects| - 1][..n] == effects[..n];
    }
  }

  lemma {:induction false} SafeAppend(s: Store, intent: CleanupIntent, first: seq<Effect>, rest: seq<Effect>)
    requires AllSafe(s, intent, first) && AllSafe(Perform(s, first), intent, rest)
    ensures AllSafe(s, intent, first + rest)
  {
    if rest == [] {
      assert first + rest == first;
    } else {
      var shorter := rest[..|rest| - 1];
      SafeAppend(s, intent, first, shorter);
      PerformAppend(s, first, shorter);
      assert (first + rest)[..|first + rest| - 1] == first + shorter;
    }
  }

  lemma SafeMaybe(s: Store, intent: CleanupIntent, happens: bool, effect: Effect, rest: seq<Effect>)
    requires happens ==> Safe(s, intent, effect)
    requires AllSafe(if happens then Do(s, effect) else s, intent, rest)
    ensures AllSafe(s, intent, (if happens then [effect] else []) + rest)
  {
    PerformNone(s);
    PerformOne(s, effect);
    if happens {
      SafeAppend(s, intent, [effect], rest);
    } else {
      assert [] + rest == rest;
    }
  }

  lemma NoneSafe(s: Store, intent: CleanupIntent)
    ensures AllSafe(s, intent, [])
  {
  }

  lemma SafeOne(s: Store, intent: CleanupIntent, effect: Effect)
    requires Safe(s, intent, effect)
    ensures AllSafe(s, intent, [effect])
  {
    PerformNone(s);
  }

  lemma FinishingSafe(s: Store, bound: Store, intent: CleanupIntent, error: Option<string>)
    requires s.owned.None? && s.pending.Some? && error == ErrorOf(s, intent)
    requires Existing(s, intent).Some? ==> Recorded(Existing(s, intent))
    ensures AllSafe(s, intent, Finishing(bound, intent, error))
  {
    hide AllSafe;
    var s' := if bound.bound then Do(s, Retire) else s;
    SafeOne(s', intent, LogReceipt(intent, error));
    SafeMaybe(s, intent, bound.bound, Retire, [LogReceipt(intent, error)]);
  }

  lemma ClosingSafe(s: Store, bound: Store, intent: CleanupIntent, mark: bool, verified: bool, error: Option<string>)
    requires s.owned == Some(intent.pane) && s.pending.Some? && !s.alive
    requires if mark then Existing(s, intent).Some?
             else error == ErrorOf(s, intent) && (Existing(s, intent).Some? ==> Recorded(Existing(s, intent)))
    ensures AllSafe(s, intent, Closing(bound, intent, mark, verified, error))
  {
    hide AllSafe;
    var s1 := if mark then Do(s, MarkCleanup(CleanupComplete, error)) else s;
    var s2 := if verified then Do(s1, RemoveCompletion) else s1;
    FinishingSafe(Do(s2, Release), bound, intent, error);
    SafeMaybe(s2, intent, true, Release, Finishing(bound, intent, error));
    SafeMaybe(s1, intent, verified, RemoveCompletion, [Release] + Finishing(bound, intent, error));
    SafeMaybe(s, intent, mark, MarkCleanup(CleanupComplete, error),
              (if verified then [RemoveCompletion] else []) + ([Release] + Finishing(bound, intent, error)));
  }

  lemma RecordingSafe(s: Store, intent: CleanupIntent, verdict: Verdict, captured: Option<string>, rest: seq<Effect>)
    requires s.killed.Some? && Existing(s, intent).Some? ==> captured == s.killed
    requires AllSafe(RecordedAs(s, verdict, captured), intent, rest)
    ensures AllSafe(s, intent, Recording(verdict, captured) + rest)
  {
    hide AllSafe, Perform, Existing;
    var save, record := SaveSnapshot(captured.GetOr("")),
                        RecordCapture(if verdict.Completes? then Complete else Failed);
    var s1 := Do(s, save);
    var s2 := Do(s1, record);
    SafeMaybe(s2, intent, true, ForgetCapture, rest);
    SafeMaybe(s1, intent, true, record, [ForgetCapture] + rest);
    SafeMaybe(s, intent, true, save, [record] + ([ForgetCapture] + rest));
    assert [save] + ([record] + ([ForgetCapture] + rest)) == Recording(verdict, captured) + rest;
  }

  lemma SettlingSafe(s: Store, bound: Store, intent: CleanupIntent, verdict: Verdict, captured: Option<string>,
                     w: World)
    requires s.owned == Some(intent.pane) && s.pending.Some? && !s.alive && Existing(s, intent).Some?
    requires s.killed.Some? ==> captured == s.killed
    ensures AllSafe(s, intent, Settling(bound, intent, verdict, captured, w))
  {
    hide AllSafe, Closing, Recording, Perform, RecordedAs, Existing;
    RecordedKeepsRest(s, intent, verdict, captured);
    var verified, error := bound.capture && (bound.completion || w.completes),
                           if verdict.Completes? then None else Some(verdict.error);
    ClosingSafe(RecordedAs(s, verdict, captured), bound, intent, true, verified, error);
    RecordingSafe(s, intent, verdict, captured, Closing(bound, intent, true, verified, error));
  }

  /** The state once the capture is recorded. */
  function RecordedAs(s: Store, verdict: Verdict, captured: Option<string>): Store {
    Do(s.(snapshot := Some(captured.GetOr(""))), RecordCapture(if verdict.Completes? then Complete else Failed))
      .(capture := false)
  }

  lemma RecordedKeepsRest(s: Store, intent: CleanupIntent, verdict: Verdict, captured: Option<string>)
    ensures var recorded := RecordedAs(s, verdict, captured);
            && recorded.owned == s.owned && recorded.alive == s.alive
            && recorded.pending == s.pending && recorded.bound == s.bound
            && (Existing(recorded, intent).Some? <==> Existing(s, intent).Some?)
  {
  }

  /** The state once the opening is over. */
  function Opened(s: Store, intent: CleanupIntent, w: World): Store {
    if !Kills(s, intent) then s
    else if Existing(s, intent).Some? then s.(snapshot := Some(w.text), alive := false, killed := Some(w.text))
    else s.(alive := false, killed := Some(w.text))
  }

  lemma OpeningSafe(s: Store, intent: CleanupIntent, w: World, rest: seq<Effect>)
    requires Inv(s, intent) && s.owned == Some(intent.pane) && AllSafe(Opened(s, intent, w), intent, rest)
    ensures AllSafe(s, intent, Opening(s, intent, w) + rest)
  {
    hide AllSafe;
    var known := Existing(s, intent).Some?;
    if Kills(s, intent) {
      var s1 := if known then Do(s, SaveSnapshot(w.text)) else s;
      SafeMaybe(s1, intent, true, Kill(w.text), rest);
      SafeMaybe(s, intent, known, SaveSnapshot(w.text), [Kill(w.text)] + rest);
      assert (if known then [SaveSnapshot(w.text)] else []) + ([Kill(w.text)] + rest) == Opening(s, intent, w) + rest;
    } else {
      assert [] + rest == rest;
    }
  }

  /** Every effect of an attempt is safe at its turn. */
  lemma PlanSafe(s: Store, intent: CleanupIntent, w: World)
    requires Inv(s, intent) && s.pending == Some(intent)
    ensures AllSafe(s, intent, PlanOf(s, intent, w).effects)
  {
    hide AllSafe;
    var existing := Existing(s, intent);
    var after := Opened(s, intent, w);
    NoneSafe(s, intent);
    NoneSafe(after, intent);
    if PlanOf(s, intent, w).effects == [] {
    } else if s.owned.None? {
      FinishingSafe(s, s, intent, ErrorOf(s, intent));
    } else if Kills(s, intent) && w.killError.Some? {
      var mark := MarkCleanup(CleanupFailed, w.killError);
      var saved := Do(s, SaveSnapshot(w.text));
      SafeOne(saved, intent, mark);
      SafeMaybe(s, intent, true, SaveSnapshot(w.text), [mark]);
    } else if Recorded(existing) {
      ClosingSafe(s, s, intent, false, s.capture && s.completion, existing.value.cleanupError);
    } else if !Unfinished(existing) {
      ClosingSafe(after, s, intent, existing.Some?, s.capture && s.completion, None);
      OpeningSafe(s, intent, w, Closing(s, intent, existing.Some?, s.capture && s.completion, None));
    } else {
      var captured := Captured(s, intent, w);
      var verdict := Settle(s, existing.value, captured, w);
      var waits := s.capture && !s.completion && w.completes;
      var waited := if waits then Do(after, CompletionAppears) else after;
      var settling := Settling(s, intent, verdict, captured, w);
      SettlingSafe(waited, s, intent, verdict, captured, w);
      SafeMaybe(after, intent, waits, CompletionAppears, settling);
      SafeOne(after, intent, CompletionAppears);
      OpeningSafe(s, intent, w, Waiting(s, w) + settling);
      OpeningSafe(s, intent, w, Waiting(s, w));
    }
  }

  lemma TakeKeepsInv(s: Store, intent: CleanupIntent, step: Step)
    requires Inv(s, intent)
    ensures Inv(Take(s, intent, step), intent)
    ensures Sound(s, intent) ==> Sound(Take(s, intent, step), intent)
  {
    hide PlanOf, Perform, AllSafe;
    if step.Attempt? && s.pending == Some(intent) {
      var effects := PlanOf(s, intent, step.w).effects;
      var n := if step.n < |effects| then step.n else |effects|;
      PlanSafe(s, intent, step.w);
      AllSafeKeepsInv(s, intent, effects, n);
      assert effects[..|effects|] == effects;
    } else {
      OutsideKeepsInv(s, intent, step);
    }
  }

  lemma OutsideKeepsInv(s: Store, intent: CleanupIntent, step: Step)
    requires Inv(s, intent) && (step.Attempt? ==> s.pending != Some(intent))
    ensures Inv(Take(s, intent, step), intent)
    ensures Sound(s, intent) ==> Sound(Take(s, intent, step), intent)
  {
    hide PlanOf, Perform;
  }

  lemma {:induction false} TakeAllKeepsInv(s: Store, intent: CleanupIntent, steps: seq<Step>)
    requires Begun(s, intent)
    ensures Inv(TakeAll(s, intent, steps), intent)
    ensures Sound(s, intent) ==> Sound(TakeAll(s, intent, steps), intent)
  {
    if steps != [] {
      TakeAllKeepsInv(s, intent, steps[..|steps| - 1]);
      TakeKeepsInv(TakeAll(s, intent, steps[..|steps| - 1]), intent, steps[|steps| - 1]);
    }
  }
}
