/** What attempts come to over runs in which the driver, the pane and the helper also do other things. */
module CleanupOutcomes {
  import opened Base
  import opened DriverLog
  import opened Cleanup
  import opened CleanupRuns
  import opened CleanupTheorems

  /** Every pane that a cleanup kills has its text in the final capture file first, when the manifest
      knows the activation. */
  lemma {:induction false} KillFollowsSnapshot(s: Store, intent: CleanupIntent, steps: seq<Step>, w: World, n: nat)
    requires Begun(s, intent) && TakeAll(s, intent, steps).pending == Some(intent)
    requires var effects := PlanOf(TakeAll(s, intent, steps), intent, w).effects; n < |effects| && effects[n].Kill?
    ensures var now := TakeAll(s, intent, steps);
            var effects := PlanOf(now, intent, w).effects;
            var before := Perform(now, effects[..n]);
            Existing(before, intent).Some? ==> before.snapshot == Some(effects[n].text)
  {
    hide Perform, PlanOf;
    TakeAllKeepsInv(s, intent, steps);
    var now := TakeAll(s, intent, steps);
    PlanSafe(now, intent, w);
    SafeAt(now, intent, PlanOf(now, intent, w).effects, n);
  }

  /** From then on the file keeps that text whatever happens, and every later attempt that looks at the
      pane's text reads it back. */
  lemma {:induction false} KilledTextIsReadBack(s: Store, intent: CleanupIntent, steps: seq<Step>, w: World)
    requires Begun(s, intent)
    ensures var now := TakeAll(s, intent, steps);
            now.killed.Some? && Existing(now, intent).Some?
            ==> now.snapshot == now.killed && Captured(now, intent, w) == now.killed && Opening(now, intent, w) == []
  {
    TakeAllKeepsInv(s, intent, steps);
  }

  lemma {:induction false} PerformOwns(s: Store, effects: seq<Effect>)
    ensures var t := Perform(s, effects);
            && s.log <= t.log
            && (t.owned == s.owned || (t.owned == None && Released in t.log))
  {
    hide Do;
    if effects != [] {
      PerformOwns(s, effects[..|effects| - 1]);
      DoOwns(Perform(s, effects[..|effects| - 1]), effects[|effects| - 1]);
    }
  }

  lemma DoOwns(s: Store, effect: Effect)
    ensures var t := Do(s, effect);
            && s.log <= t.log
            && (t.owned == s.owned || (t.owned == None && Released in t.log))
  {
  }

  /** Without the intent's own pane an attempt does nothing, or finishes without a release. */
  lemma WithoutPane(s: Store, intent: CleanupIntent, w: World, n: nat)
    requires Inv(s, intent) && s.owned != Some(intent.pane) && n <= |PlanOf(s, intent, w).effects|
    ensures var t := Perform(s, PlanOf(s, intent, w).effects[..n]);
            t.owned == s.owned && (t.log == s.log || t.log == s.log + [Receipt(intent, ErrorOf(s, intent))])
    ensures OwnsLater(s, intent) ==> PlanOf(s, intent, w) == Plan([], Err(DifferentAllocation))
  {
    hide Perform;
    var effects := PlanOf(s, intent, w).effects;
    PerformNone(s);
    if effects != [] {
      var error := ErrorOf(s, intent);
      assert effects == Finishing(s, intent, error);
      if n == |effects| {
        FinishingDone(s, intent, error);
        assert effects[..n] == effects;
      } else {
        PrefixMaybe(s, s.bound, Retire, [LogReceipt(intent, error)], n);
        PerformNone(Do(s, Retire));
      }
    }
  }

  /** What a step that is an attempt does to ownership. */
  lemma AttemptOwns(s: Store, intent: CleanupIntent, step: Step)
    requires Inv(s, intent) && step.Attempt?
    ensures var t := Take(s, intent, step);
            if s.owned == Some(intent.pane) then t.owned == s.owned || (t.owned == None && Released in t.log)
            else t.owned == s.owned && (WasReleased(t) <==> WasReleased(s))
  {
    hide PlanOf, Perform;
    if s.pending == Some(intent) {
      var effects := PlanOf(s, intent, step.w).effects;
      var n := if step.n < |effects| then step.n else |effects|;
      assert effects[..|effects|] == effects;
      PerformOwns(s, effects[..n]);
      if s.owned != Some(intent.pane) { WithoutPane(s, intent, step.w, n); }
    }
  }

  /** The n-th step gives the activation another pane. */
  ghost predicate GivesPane(s: Store, intent: CleanupIntent, steps: seq<Step>, n: nat) {
    n < |steps| && CanReallocate(TakeAll(s, intent, steps[..n]), intent, steps[n])
  }

  /** The n-th step drops the intent's own pane with the pane map. */
  ghost predicate LosesPane(s: Store, intent: CleanupIntent, steps: seq<Step>, n: nat) {
    n < |steps| && steps[n].Unbind? && TakeAll(s, intent, steps[..n]).owned == Some(intent.pane)
  }

  predicate KeepsPanes(steps: seq<Step>) {
    forall step <- steps :: !step.Unbind?
  }

  /** The intent's pane is gone, and no event released it. */
  predicate Lost(s: Store, intent: CleanupIntent) {
    s.owned != Some(intent.pane) && !WasReleased(s)
  }

  lemma {:induction false} OwnsLaterIff(s: Store, intent: CleanupIntent, steps: seq<Step>)
    requires Begun(s, intent)
    ensures OwnsLater(TakeAll(s, intent, steps), intent)
       <==> exists n :: GivesPane(s, intent, steps, n) && KeepsPanes(steps[n + 1..])
  {
    hide PlanOf, Perform, Inv;
    if steps != [] {
      var front, last := steps[..|steps| - 1], |steps| - 1;
      var before := TakeAll(s, intent, front);
      TakeAllKeepsInv(s, intent, front);
      OwnsLaterIff(s, intent, front);
      OwnsLaterStep(before, intent, steps[last]);
      forall n | 0 <= n < last
        ensures GivesPane(s, intent, steps, n) <==> GivesPane(s, intent, front, n)
        ensures KeepsPanes(steps[n + 1..]) <==> KeepsPanes(front[n + 1..]) && !steps[last].Unbind?
      {
        assert steps[..n] == front[..n];
        assert steps[n + 1..] == front[n + 1..] + [steps[last]];
      }
      assert steps[..last] == front && steps[last + 1..] == [];
      if OwnsLater(before, intent) && !steps[last].Unbind? {
        var n :| GivesPane(s, intent, front, n) && KeepsPanes(front[n + 1..]);
        assert GivesPane(s, intent, steps, n) && KeepsPanes(steps[n + 1..]);
      }
      if CanReallocate(before, intent, steps[last]) {
        assert GivesPane(s, intent, steps, last) && KeepsPanes(steps[last + 1..]);
      }
    }
  }

  lemma OwnsLaterStep(s: Store, intent: CleanupIntent, step: Step)
    requires Inv(s, intent)
    ensures OwnsLater(Take(s, intent, step), intent)
       <==> CanReallocate(s, intent, step) || (OwnsLater(s, intent) && !step.Unbind?)
  {
    hide PlanOf, Perform;
    if step.Attempt? { AttemptOwns(s, intent, step); }
  }

  lemma {:induction false} LostIff(s: Store, intent: CleanupIntent, steps: seq<Step>)
    requires Begun(s, intent)
    ensures Lost(TakeAll(s, intent, steps), intent) <==> exists n :: LosesPane(s, intent, steps, n)
  {
    hide PlanOf, Perform, Inv;
    if steps != [] {
      var front, last := steps[..|steps| - 1], |steps| - 1;
      var before := TakeAll(s, intent, front);
      TakeAllKeepsInv(s, intent, front);
      LostIff(s, intent, front);
      LostStep(before, intent, steps[last]);
      forall n | 0 <= n < last ensures LosesPane(s, intent, steps, n) <==> LosesPane(s, intent, front, n) {
        assert steps[..n] == front[..n];
      }
      assert steps[..last] == front;
      if Lost(before, intent) {
        var n :| LosesPane(s, intent, front, n);
        assert LosesPane(s, intent, steps, n);
      }
      if steps[last].Unbind? && before.owned == Some(intent.pane) {
        assert LosesPane(s, intent, steps, last);
      }
    }
  }

  lemma LostStep(s: Store, intent: CleanupIntent, step: Step)
    requires Inv(s, intent)
    ensures Lost(Take(s, intent, step), intent)
       <==> Lost(s, intent) || (step.Unbind? && s.owned == Some(intent.pane))
  {
    hide PlanOf, Perform;
    if step.Attempt? {
      AttemptOwns(s, intent, step);
      TakeKeepsInv(s, intent, step);
    }
  }

  /** A pending cleanup is refused for a different allocation exactly when its activation was given
      another pane, after the release or the loss of the intent's own, and still has it. */
  lemma {:induction false} RefusedIffReallocated(s: Store, intent: CleanupIntent, steps: seq<Step>, w: World)
    requires Begun(s, intent)
    ensures PlanOf(TakeAll(s, intent, steps), intent, w).outcome == Err(DifferentAllocation)
       <==> exists n :: GivesPane(s, intent, steps, n) && KeepsPanes(steps[n + 1..])
  {
    hide TakeAll, GivesPane, KeepsPanes;
    TakeAllKeepsInv(s, intent, steps);
    OwnsLaterIff(s, intent, steps);
  }

  /** It finds a pane gone with incomplete assets exactly when the pane was lost with the pane map before
      the cleanup was recorded, and neither another pane nor another capture has taken its place. */
  lemma {:induction false} IncompleteIffLost(s: Store, intent: CleanupIntent, steps: seq<Step>, w: World)
    requires Begun(s, intent)
    ensures var now := TakeAll(s, intent, steps);
            PlanOf(now, intent, w).outcome == Err(IncompleteAssets)
            <==> && (exists n :: LosesPane(s, intent, steps, n))
                 && now.owned == None && Existing(now, intent).Some? && !Recorded(Existing(now, intent))
  {
    hide TakeAll, LosesPane;
    TakeAllKeepsInv(s, intent, steps);
    LostIff(s, intent, steps);
  }

  /** So as long as the pane map is not emptied, no run meets a released pane with incomplete assets. */
  lemma {:induction false} NeverIncomplete(s: Store, intent: CleanupIntent, steps: seq<Step>, w: World)
    requires Begun(s, intent) && KeepsPanes(steps)
    ensures var outcome := PlanOf(TakeAll(s, intent, steps), intent, w).outcome;
            outcome.Err? ==> outcome.error in {KillFailed, CannotComplete, DifferentAllocation}
  {
    hide TakeAll;
    TakeAllKeepsInv(s, intent, steps);
    LostIff(s, intent, steps);
  }

  /** With another pane owned the intent stays pending: attempts, restarts and captures change nothing of
      it, and every attempt is refused without an effect. */
  lemma {:induction false} RefusedForever(s: Store, intent: CleanupIntent, steps: seq<Step>, w: World)
    requires Inv(s, intent) && s.pending == Some(intent) && OwnsLater(s, intent) && KeepsPanes(steps)
    ensures var now := TakeAll(s, intent, steps);
            && now.pending == Some(intent) && now.owned == s.owned && now.log == s.log
            && PlanOf(now, intent, w) == Plan([], Err(DifferentAllocation))
  {
    if steps != [] {
      var front, step := steps[..|steps| - 1], steps[|steps| - 1];
      assert step in steps && KeepsPanes(front);
      RefusedForever(s, intent, front, w);
      RefusedOnce(TakeAll(s, intent, front), intent, step);
    }
  }

  lemma RefusedOnce(s: Store, intent: CleanupIntent, step: Step)
    requires intent.generation == intent.pane.generation && OwnsLater(s, intent) && !step.Unbind?
    ensures var t := Take(s, intent, step); t.pending == s.pending && t.owned == s.owned && t.log == s.log
  {
    if step.Attempt? {
      assert PlanOf(s, intent, step.w).effects == [];
      PerformNone(s);
    }
  }

  /** How it comes to that: everything but the receipt happens, and the activation, which still runs, is
      given another pane. Nothing in an allocation looks at pending cleanups. */
  lemma {:induction false} ReallocationStrands(s: Store, intent: CleanupIntent, w: World, pane: Pane)
    requires Begun(s, intent) && PlanOf(s, intent, w).outcome.Ok? && pane.generation > intent.generation
    ensures var stopped := |PlanOf(s, intent, w).effects| - 1;
            var now := TakeAll(s, intent, [Attempt(w, stopped), Reallocate(pane)]);
            && now.log == [Released] && now.pending == Some(intent) && now.owned == Some(pane)
            && Inv(now, intent) && OwnsLater(now, intent)
  {
    hide Perform, PlanOf, AllSafe;
    var effects := PlanOf(s, intent, w).effects;
    var n := |effects| - 1;
    EndsWithReceipt(s, intent, w);
    BegunIsInv(s, intent);
    PlanSafe(s, intent, w);
    SafeAt(s, intent, effects, n);
    PerformOwns(s, effects[..n]);
    AllSafeKeepsInv(s, intent, effects, n);
    var steps := [Attempt(w, n), Reallocate(pane)];
    assert steps[..1] == [Attempt(w, n)];
    assert TakeAll(s, intent, [Attempt(w, n)]) == Perform(s, effects[..n]);
    TakeAllKeepsInv(s, intent, steps);
  }

  lemma BegunIsInv(s: Store, intent: CleanupIntent)
    requires Begun(s, intent)
    ensures Inv(s, intent)
  {
  }

  lemma EndsWithReceipt(s: Store, intent: CleanupIntent, w: World)
    requires PlanOf(s, intent, w).outcome.Ok?
    ensures var effects := PlanOf(s, intent, w).effects; effects != [] && effects[|effects| - 1].LogReceipt?
  {
    hide Opening, Waiting, Recording, Closing, Finishing;
    forall error ensures Ends(Finishing(s, intent, error)) {
      EndsOf(s, intent, false, false, error);
    }
    forall mark, verified, error ensures Ends(Closing(s, intent, mark, verified, error)) {
      EndsOf(s, intent, mark, verified, error);
    }
  }

  predicate Ends(effects: seq<Effect>) {
    effects != [] && effects[|effects| - 1].LogReceipt?
  }

  lemma EndsOf(s: Store, intent: CleanupIntent, mark: bool, verified: bool, error: Option<string>)
    ensures Ends(Finishing(s, intent, error)) && Ends(Closing(s, intent, mark, verified, error))
  {
  }

  /** And to the other: the pane map is emptied while the cleanup is not recorded yet. */
  lemma UnbindStrands(s: Store, intent: CleanupIntent, w: World)
    requires Begun(s, intent) && Existing(s, intent).Some?
    ensures PlanOf(Take(s, intent, Unbind), intent, w) == Plan([], Err(IncompleteAssets))
  {
  }

  /** However often the cleanup was cut off before, an attempt that succeeds leaves nothing pending, no
      pane owned, the participant retired, the resource cleanup recorded as complete, and in the log the
      release, unless the pane was lost with the pane map, and then the receipt for the intent, with the
      manifest's preservation error. A pane that was released is dead. A capture that was unfinished is
      recorded, as failed exactly when there is such an error, and the completion file of a known capture
      is gone. */
  lemma {:induction false} SuccessIsComplete(s: Store, intent: CleanupIntent, steps: seq<Step>, w: World)
    requires Begun(s, intent) && TakeAll(s, intent, steps).pending == Some(intent)
    requires PlanOf(TakeAll(s, intent, steps), intent, w).outcome.Ok?
    ensures var now := TakeAll(s, intent, steps);
            var error := PlanOf(now, intent, w).outcome.value;
            var final := Finish(now, intent, w);
            && final.owned == None && final.pending == None && !final.bound
            && (Existing(final, intent).Some? ==> Recorded(Existing(final, intent)) && ErrorOf(final, intent) == error)
            && final.log == (if Lost(now, intent) then [] else [Released]) + [Receipt(intent, error)]
            && (!Lost(now, intent) ==> !final.alive)
            && (now.owned.Some? && now.capture ==> !final.completion)
            && (Records(now, intent) ==>
                  Existing(final, intent).Some?
                  && Existing(final, intent).value.phase == if error.None? then Complete else Failed)
  {
    hide TakeAll, Perform, PlanOf, Finish;
    var now := TakeAll(s, intent, steps);
    TakeAllKeepsInv(s, intent, steps);
    SuccessKeepsInv(now, intent, w);
    SuccessEndsPending(now, intent, w);
    if now.owned != Some(intent.pane) { WithoutPane(now, intent, w, 0); }
  }

  lemma SuccessKeepsInv(s: Store, intent: CleanupIntent, w: World)
    requires Inv(s, intent) && s.pending == Some(intent)
    ensures Inv(Finish(s, intent, w), intent)
  {
    hide Perform, PlanOf, AllSafe;
    var effects := PlanOf(s, intent, w).effects;
    PlanSafe(s, intent, w);
    AllSafeKeepsInv(s, intent, effects, |effects|);
    assert effects[..|effects|] == effects;
  }

  /** The attempt has a capture to record. */
  predicate Records(s: Store, intent: CleanupIntent) {
    s.owned.Some? && !Recorded(Existing(s, intent)) && Unfinished(Existing(s, intent))
  }

  lemma SuccessEndsPending(s: Store, intent: CleanupIntent, w: World)
    requires Inv(s, intent) && s.pending == Some(intent) && PlanOf(s, intent, w).outcome.Ok?
    ensures var final := Finish(s, intent, w);
            && final.owned == None && final.pending == None && !final.bound
            && final.log == s.log + (if s.owned.Some? then [Released] else [])
                            + [Receipt(intent, PlanOf(s, intent, w).outcome.value)]
    ensures Existing(Finish(s, intent, w), intent).Some?
            ==> Ok(ErrorOf(Finish(s, intent, w), intent)) == PlanOf(s, intent, w).outcome
    ensures s.owned.Some? && s.capture ==> !Finish(s, intent, w).completion
    ensures Records(s, intent) ==>
              var known := Existing(Finish(s, intent, w), intent);
              known.Some? && known.value.phase == if PlanOf(s, intent, w).outcome.value.None? then Complete else Failed
  {
    hide Finish, Closed;
    var calm := w.(killError := None);
    if s.owned.None? {
      FinishReleased(s, intent, w);
    } else if Recorded(Existing(s, intent)) {
      FinishRecorded(s, intent, w);
      ClosedIsDone(s, intent, false, s.capture && s.completion, ErrorOf(s, intent));
    } else if !Unfinished(Existing(s, intent)) {
      NoKillError(s, intent, w);
      FinishPreserved(s, intent, calm);
      ClosedIsDone(Opened(s, intent, w), intent, Existing(s, intent).Some?, s.capture && s.completion, None);
    } else {
      NoKillError(s, intent, w);
      RecordingEndsPending(s, intent, calm);
    }
  }

  lemma RecordingEndsPending(s: Store, intent: CleanupIntent, w: World)
    requires Owning(s, intent) && PlanOf(s, intent, w).outcome.Ok? && w.killError == None
    requires !Recorded(Existing(s, intent)) && Unfinished(Existing(s, intent))
    ensures var final, error := Finish(s, intent, w), PlanOf(s, intent, w).outcome.value;
            && final.owned == None && final.pending == None && !final.bound
            && final.log == s.log + [Released] + [Receipt(intent, error)]
            && (s.capture ==> !final.completion)
            && Existing(final, intent).Some? && ErrorOf(final, intent) == error
            && Existing(final, intent).value.phase == if error.None? then Complete else Failed
  {
    hide Finish, Closed;
    FinishUnfinished(s, intent, w);
    var recorded := RecordedAs(Waited(Opened(s, intent, w), w), VerdictOf(s, intent, w), Captured(s, intent, w));
    ClosedIsDone(recorded, intent, true, s.capture && (s.completion || w.completes),
                 VerdictError(VerdictOf(s, intent, w)));
  }

  lemma ClosedIsDone(s: Store, intent: CleanupIntent, mark: bool, verified: bool, error: Option<string>)
    ensures var closed := Closed(s, intent, mark, verified, error);
            && closed.owned == None && closed.pending == None && !closed.bound
            && closed.log == s.log + [Released] + [Receipt(intent, error)]
            && (Existing(closed, intent).Some? ==>
                  ErrorOf(closed, intent) == if mark then error else ErrorOf(s, intent))
            && (Existing(closed, intent).Some? <==> Existing(s, intent).Some?)
            && (Existing(s, intent).Some? ==> Existing(closed, intent).value.phase == Existing(s, intent).value.phase)
            && closed.completion == (s.completion && !verified)
  {
  }

  /** The pane's text that an attempt can work with: taken from the living pane, or saved before. */
  function TextOf(s: Store, w: World): Option<string> {
    if s.alive && !(s.capture && s.completion) then Some(w.text) else s.snapshot
  }

  /** What an attempt that records a capture says of it, from any reachable state: it is complete exactly when the
      helper completed an acknowledged capture and there is a text; otherwise the error is that of the wait, or
      names what is missing. The file then holds the text. */
  lemma {:induction false} PreservationIsExact(s: Store, intent: CleanupIntent, steps: seq<Step>, w: World)
    requires Begun(s, intent) && TakeAll(s, intent, steps).pending == Some(intent)
    requires Records(TakeAll(s, intent, steps), intent)
    requires PlanOf(TakeAll(s, intent, steps), intent, w).outcome.Ok?
    ensures var now := TakeAll(s, intent, steps);
            var helped, text := now.capture && (now.completion || w.completes), TextOf(now, w);
            && PlanOf(now, intent, w).outcome.value
               == (if helped && text.Some? && Existing(now, intent).value.acknowledged then None
                   else if now.capture && !helped then Some(w.waitError)
                   else if text.Some? then Some("pipe capture completion is unavailable")
                   else Some("final capture snapshot is unavailable"))
            && Finish(now, intent, w).snapshot == Some(text.GetOr(""))
  {
    hide TakeAll, Finish;
    var now := TakeAll(s, intent, steps);
    TakeAllKeepsInv(s, intent, steps);
    NoKillError(now, intent, w);
    FinishUnfinished(now, intent, w.(killError := None));
  }

  /** A pane that cannot be killed stays as it is, owned and with its cleanup pending; its text is saved and the
      manifest says why, if it knows the activation. */
  lemma {:induction false} FailedKillIsRecorded(s: Store, intent: CleanupIntent, steps: seq<Step>, w: World)
    requires Begun(s, intent) && w.killError.Some?
    requires var now := TakeAll(s, intent, steps);
             && now.pending == Some(intent) && now.owned == Some(intent.pane)
             && now.alive && !(now.capture && now.completion) && !Recorded(Existing(now, intent))
    ensures var now := TakeAll(s, intent, steps);
            var final := Finish(now, intent, w);
            && PlanOf(now, intent, w).outcome == Err(KillFailed)
            && (Existing(now, intent).None? ==> final == now)
            && (Existing(now, intent).Some? ==>
                  && final == now.(snapshot := Some(w.text), asset := final.asset)
                  && final.asset == Some(now.asset.value.(cleanup := CleanupFailed, cleanupError := w.killError)))
  {
    hide TakeAll, Perform;
    var now := TakeAll(s, intent, steps);
    TakeAllKeepsInv(s, intent, steps);
    PerformNone(now);
    PerformCons(now, SaveSnapshot(w.text), [MarkCleanup(CleanupFailed, w.killError)]);
    PerformOne(Do(now, SaveSnapshot(w.text)), MarkCleanup(CleanupFailed, w.killError));
  }

  /** Why an attempt whose capture is not at fault may fail: another pane or none is in the way, or the
      pane cannot be killed. */
  ghost predicate InTheWay(s: Store, intent: CleanupIntent, w: World) {
    || OwnsLater(s, intent)
    || (s.owned == None && Existing(s, intent).Some? && !Recorded(Existing(s, intent)))
    || (s.owned == Some(intent.pane) && Kills(s, intent) && w.killError.Some?)
  }

  /** A failed capture is on record, the cleanup is not, and now the helper's completion is there. */
  predicate FailureOnRecord(s: Store, intent: CleanupIntent, w: World) {
    && s.owned == Some(intent.pane) && Existing(s, intent).Some? && !Recorded(Existing(s, intent))
    && Existing(s, intent).value.phase == Failed
    && s.capture && (s.completion || w.completes)
  }

  /** For a pane that was capturing when its cleanup began: an attempt in any reachable state and any
      world succeeds if and only if nothing is in the way and no failed capture is on record that the
      helper's completion now belies. */
  lemma {:induction false} SucceedsUnlessFailureIsOnRecord(s: Store, intent: CleanupIntent, steps: seq<Step>, w: World)
    requires Begun(s, intent) && Sound(s, intent)
    ensures var now := TakeAll(s, intent, steps);
            PlanOf(now, intent, w).outcome.Ok? <==> !InTheWay(now, intent, w) && !FailureOnRecord(now, intent, w)
  {
    hide TakeAll;
    TakeAllKeepsInv(s, intent, steps);
  }

  /** A capture that was never acknowledged does not wait for its helper's word: its cleanup succeeds
      unless something is in the way, and says why an unfinished capture failed. */
  lemma {:induction false} UnacknowledgedSucceeds(s: Store, intent: CleanupIntent, steps: seq<Step>, w: World)
    requires Begun(s, intent)
    requires Existing(s, intent).Some? ==> !Existing(s, intent).value.acknowledged
    ensures var now := TakeAll(s, intent, steps);
            && (PlanOf(now, intent, w).outcome.Ok? <==> !InTheWay(now, intent, w))
            && (PlanOf(now, intent, w).outcome.Ok? && Records(now, intent) ==>
                  PlanOf(now, intent, w).outcome.value.Some?)
  {
    hide TakeAll, PlanOf;
    TakeAllKeepsInv(s, intent, steps);
    TakeAllKeepsUnacknowledged(s, intent, steps);
    UnacknowledgedPlan(TakeAll(s, intent, steps), intent, w);
  }

  lemma UnacknowledgedPlan(s: Store, intent: CleanupIntent, w: World)
    requires Inv(s, intent) && Unacknowledged(s, intent)
    ensures PlanOf(s, intent, w).outcome.Ok? <==> !InTheWay(s, intent, w)
    ensures PlanOf(s, intent, w).outcome.Ok? && Records(s, intent) ==> PlanOf(s, intent, w).outcome.value.Some?
  {
  }

  predicate Unacknowledged(s: Store, intent: CleanupIntent) {
    Existing(s, intent).Some? ==> !Existing(s, intent).value.acknowledged
  }

  lemma {:induction false} PerformKeepsUnacknowledged(s: Store, intent: CleanupIntent, effects: seq<Effect>)
    requires Unacknowledged(s, intent)
    ensures Unacknowledged(Perform(s, effects), intent)
  {
    hide Do;
    if effects != [] {
      PerformKeepsUnacknowledged(s, intent, effects[..|effects| - 1]);
      DoKeepsUnacknowledged(Perform(s, effects[..|effects| - 1]), intent, effects[|effects| - 1]);
    }
  }

  lemma DoKeepsUnacknowledged(s: Store, intent: CleanupIntent, effect: Effect)
    requires Unacknowledged(s, intent)
    ensures Unacknowledged(Do(s, effect), intent)
  {
  }

  lemma {:induction false} TakeAllKeepsUnacknowledged(s: Store, intent: CleanupIntent, steps: seq<Step>)
    requires Unacknowledged(s, intent)
    ensures Unacknowledged(TakeAll(s, intent, steps), intent)
  {
    hide Take, Unacknowledged;
    if steps != [] {
      TakeAllKeepsUnacknowledged(s, intent, steps[..|steps| - 1]);
      TakeKeepsUnacknowledged(TakeAll(s, intent, steps[..|steps| - 1]), intent, steps[|steps| - 1]);
    }
  }

  lemma TakeKeepsUnacknowledged(s: Store, intent: CleanupIntent, step: Step)
    requires Unacknowledged(s, intent)
    ensures Unacknowledged(Take(s, intent, step), intent)
  {
    hide PlanOf, Perform;
    if step.Attempt? && s.pending == Some(intent) {
      var effects := PlanOf(s, intent, step.w).effects;
      PerformKeepsUnacknowledged(s, intent, if step.n < |effects| then effects[..step.n] else effects);
    }
  }

  /** The state in which the helper's completion arrived after the failure was recorded. */
  predicate Blocked(s: Store, intent: CleanupIntent) {
    && intent.generation == intent.pane.generation && s.pending == Some(intent) && s.owned == Some(intent.pane)
    && s.captureLogged && s.capture && s.completion && !s.alive && s.snapshot.Some?
    && Existing(s, intent).Some? && !Recorded(Existing(s, intent))
    && Existing(s, intent).value.phase == Failed && Existing(s, intent).value.acknowledged
  }

  /** No number of attempts, restarts and allocations leads out of it. */
  lemma {:induction false} BlockedForever(s: Store, intent: CleanupIntent, steps: seq<Step>)
    requires Blocked(s, intent) && KeepsPanes(steps)
    ensures TakeAll(s, intent, steps) == s
    ensures forall w :: PlanOf(s, intent, w) == Plan([], Err(CannotComplete))
  {
    if steps != [] {
      assert steps[|steps| - 1] in steps && KeepsPanes(steps[..|steps| - 1]);
      BlockedForever(s, intent, steps[..|steps| - 1]);
      BlockedOnce(s, intent, steps[|steps| - 1]);
    }
  }

  lemma BlockedOnce(s: Store, intent: CleanupIntent, step: Step)
    requires Blocked(s, intent) && !step.Unbind?
    ensures Take(s, intent, step) == s
  {
    if step.Attempt? {
      assert PlanOf(s, intent, step.w).effects == [];
      PerformNone(s);
    }
  }

  /** A crash right after a failed capture is recorded. */
  lemma FailureRecorded(s: Store, intent: CleanupIntent, w: World)
    requires Owning(s, intent) && w.killError == None
    requires !Recorded(Existing(s, intent)) && Unfinished(Existing(s, intent)) && VerdictOf(s, intent, w).Fails?
    ensures var effects, n := PlanOf(s, intent, w).effects, |Opening(s, intent, w)| + |Waiting(s, w)| + 2;
            && n <= |effects|
            && Perform(s, effects[..n])
               == RecordedAs(Waited(Opened(s, intent, w), w), VerdictOf(s, intent, w), Captured(s, intent, w))
                    .(capture := s.capture)
  {
    hide Perform, Opening, Opened;
    var captured, verdict := Captured(s, intent, w), VerdictOf(s, intent, w);
    var after := Opened(s, intent, w);
    var waited := Waited(after, w);
    var opening, settling := Opening(s, intent, w), Settling(s, intent, verdict, captured, w);
    PerformPrefix(s, opening, Waiting(s, w) + settling, |opening| + |Waiting(s, w)| + 2);
    OpeningDone(s, intent, w, []);
    assert opening + [] == opening;
    PerformNone(after);
    OpenedKeepsCapture(s, intent, w);
    PrefixMaybe(after, s.capture && !s.completion && w.completes, CompletionAppears, settling, |Waiting(s, w)| + 2);
    var save, record := SaveSnapshot(captured.GetOr("")), RecordCapture(Failed);
    assert settling[..2] == [save] + [record];
    PerformCons(waited, save, [record]);
    PerformOne(Do(waited, save), record);
  }

  lemma OpenedKeepsCapture(s: Store, intent: CleanupIntent, w: World)
    ensures Opened(s, intent, w).capture == s.capture && Opened(s, intent, w).completion == s.completion
  {
  }

  /** How it is reached: the wait for the helper runs out, the failure is recorded, and the helper
      publishes after a crash at that point. */
  lemma LateCompletionBlocks(s: Store, intent: CleanupIntent, w: World)
    requires Begun(s, intent) && s.capture && !s.completion && !w.completes && w.killError == None
    requires Existing(s, intent).Some? && CanComplete(Existing(s, intent).value) && !Recorded(Existing(s, intent))
    requires s.alive || s.snapshot.Some?
    ensures PlanOf(s, intent, w).outcome.Ok?
    ensures var n := |Opening(s, intent, w)| + |Waiting(s, w)| + 2;
            Blocked(TakeAll(s, intent, [Attempt(w, n), Crash, HelperPublishes]), intent)
  {
    hide Perform;
    var n := |Opening(s, intent, w)| + |Waiting(s, w)| + 2;
    FailureRecorded(s, intent, w);
    TakeThree(s, intent, Attempt(w, n), Crash, HelperPublishes);
    assert PlanOf(s, intent, w).effects[..|PlanOf(s, intent, w).effects|] == PlanOf(s, intent, w).effects;
  }

  /** Another way: the pane died before any snapshot of it was taken. The failed attempt leaves an empty
      snapshot behind, and after a crash the next one takes it for the pane's text. */
  lemma MissingSnapshotBlocks(s: Store, intent: CleanupIntent, w: World)
    requires Begun(s, intent) && s.capture && s.completion && s.snapshot == None && w.killError == None
    requires Existing(s, intent).Some? && CanComplete(Existing(s, intent).value) && !Recorded(Existing(s, intent))
    ensures PlanOf(s, intent, w).outcome.Ok? && !HasText(s, intent, w)
    ensures var n := |Opening(s, intent, w)| + |Waiting(s, w)| + 2;
            Blocked(TakeAll(s, intent, [Attempt(w, n), Crash, Crash]), intent)
  {
    hide Perform;
    var n := |Opening(s, intent, w)| + |Waiting(s, w)| + 2;
    FailureRecorded(s, intent, w);
    TakeThree(s, intent, Attempt(w, n), Crash, Crash);
    assert PlanOf(s, intent, w).effects[..|PlanOf(s, intent, w).effects|] == PlanOf(s, intent, w).effects;
  }

  lemma TakeThree(s: Store, intent: CleanupIntent, a: Step, b: Step, c: Step)
    ensures TakeAll(s, intent, [a, b, c]) == Take(Take(Take(s, intent, a), intent, b), intent, c)
  {
    assert [a, b, c][..2] == [a, b] && [a, b][..1] == [a];
    assert TakeAll(s, intent, [a]) == Take(s, intent, a);
    assert TakeAll(s, intent, [a, b]) == Take(Take(s, intent, a), intent, b);
  }
}
