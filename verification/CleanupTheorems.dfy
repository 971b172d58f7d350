/** What a pane cleanup that was cut off anywhere comes to when it is taken up again. */
module CleanupTheorems {
  import opened Base
  import opened DriverLog
  import opened Cleanup
  import opened CleanupRuns

  /** The state that an attempt leaves when nothing interrupts it. */
  function Finish(s: Store, intent: CleanupIntent, w: World): Store {
    Perform(s, PlanOf(s, intent, w).effects)
  }

  function Receipted(s: Store, intent: CleanupIntent, error: Option<string>): Store {
    s.(bound := false, pending := None, log := s.log + [Receipt(intent, error)])
  }

  function Marked(s: Store, error: Option<string>): Store {
    Do(s, MarkCleanup(CleanupComplete, error))
  }

  /** The state at the end of a closing. */
  function Closed(s: Store, intent: CleanupIntent, mark: bool, verified: bool, error: Option<string>): Store {
    var marked := if mark then Marked(s, error) else s;
    Receipted(Do(if verified then marked.(completion := false) else marked, Release), intent, error)
  }

  function Waited(s: Store, w: World): Store {
    if s.capture && !s.completion && w.completes then s.(completion := true) else s
  }

  lemma FinishingDone(s: Store, intent: CleanupIntent, error: Option<string>)
    ensures Perform(s, Finishing(s, intent, error)) == Receipted(s, intent, error)
  {
    hide Perform;
    PerformMaybe(s, s.bound, Retire, [LogReceipt(intent, error)]);
    PerformOne(if s.bound then Do(s, Retire) else s, LogReceipt(intent, error));
  }

  lemma ClosingDone(s: Store, intent: CleanupIntent, mark: bool, verified: bool, error: Option<string>)
    ensures Perform(s, Closing(s, intent, mark, verified, error)) == Closed(s, intent, mark, verified, error)
  {
    hide Perform;
    var finishing := Finishing(s, intent, error);
    var s1 := if mark then Marked(s, error) else s;
    var s2 := if verified then Do(s1, RemoveCompletion) else s1;
    PerformMaybe(s, mark, MarkCleanup(CleanupComplete, error),
                 (if verified then [RemoveCompletion] else []) + ([Release] + finishing));
    PerformMaybe(s1, verified, RemoveCompletion, [Release] + finishing);
    PerformCons(s2, Release, finishing);
    FinishingDone(Do(s2, Release), intent, error);
  }

  lemma RecordingDone(s: Store, verdict: Verdict, captured: Option<string>)
    ensures Perform(s, Recording(verdict, captured)) == RecordedAs(s, verdict, captured)
  {
    hide Perform;
    var record := RecordCapture(if verdict.Completes? then Complete else Failed);
    PerformCons(s, SaveSnapshot(captured.GetOr("")), [record] + [ForgetCapture]);
    PerformCons(s.(snapshot := Some(captured.GetOr(""))), record, [ForgetCapture]);
    PerformOne(Do(s.(snapshot := Some(captured.GetOr(""))), record), ForgetCapture);
  }

  lemma OpeningDone(s: Store, intent: CleanupIntent, w: World, rest: seq<Effect>)
    ensures Perform(s, Opening(s, intent, w) + rest) == Perform(Opened(s, intent, w), rest)
  {
    hide Perform;
    var known := Existing(s, intent).Some?;
    if Kills(s, intent) {
      var saved := if known then Do(s, SaveSnapshot(w.text)) else s;
      PerformMaybe(s, known, SaveSnapshot(w.text), [Kill(w.text)] + rest);
      PerformCons(saved, Kill(w.text), rest);
      assert (if known then [SaveSnapshot(w.text)] else []) + ([Kill(w.text)] + rest) == Opening(s, intent, w) + rest;
    } else {
      assert [] + rest == rest;
    }
  }

  lemma PrefixMaybe(s: Store, happens: bool, effect: Effect, rest: seq<Effect>, n: nat)
    requires n <= |(if happens then [effect] else []) + rest|
    ensures Perform(s, ((if happens then [effect] else []) + rest)[..n])
         == if n == 0 then s
            else if happens then Perform(Do(s, effect), rest[..n - 1])
            else Perform(s, rest[..n])
  {
    PerformNone(s);
    PerformOne(s, effect);
    PerformPrefix(s, if happens then [effect] else [], rest, n);
  }

  /** Everything the attempt needs to know of a pane that is still owned. */
  ghost predicate Owning(s: Store, intent: CleanupIntent) {
    intent.generation == intent.pane.generation && s.owned == Some(intent.pane)
  }

  lemma FinishReleased(s: Store, intent: CleanupIntent, w: World)
    requires intent.generation == intent.pane.generation && s.owned == None
    requires Existing(s, intent).Some? ==> Recorded(Existing(s, intent))
    ensures PlanOf(s, intent, w).outcome == Ok(ErrorOf(s, intent))
    ensures Finish(s, intent, w) == Receipted(s, intent, ErrorOf(s, intent))
  {
    FinishingDone(s, intent, ErrorOf(s, intent));
  }

  lemma FinishRecorded(s: Store, intent: CleanupIntent, w: World)
    requires Owning(s, intent) && Recorded(Existing(s, intent))
    ensures PlanOf(s, intent, w).outcome == Ok(ErrorOf(s, intent))
    ensures Finish(s, intent, w) == Closed(s, intent, false, s.capture && s.completion, ErrorOf(s, intent))
  {
    ClosingDone(s, intent, false, s.capture && s.completion, ErrorOf(s, intent));
  }

  lemma FinishPreserved(s: Store, intent: CleanupIntent, w: World)
    requires Owning(s, intent) && w.killError == None
    requires !Recorded(Existing(s, intent)) && !Unfinished(Existing(s, intent))
    ensures PlanOf(s, intent, w).outcome == Ok(None)
    ensures Finish(s, intent, w)
         == Closed(Opened(s, intent, w), intent, Existing(s, intent).Some?, s.capture && s.completion, None)
  {
    hide Perform, Closing;
    var closing := Closing(s, intent, Existing(s, intent).Some?, s.capture && s.completion, None);
    OpeningDone(s, intent, w, closing);
    ClosingBound(s, Opened(s, intent, w), intent, Existing(s, intent).Some?, s.capture && s.completion, None);
    ClosingDone(Opened(s, intent, w), intent, Existing(s, intent).Some?, s.capture && s.completion, None);
  }

  lemma ClosingBound(s: Store, t: Store, intent: CleanupIntent, mark: bool, verified: bool, error: Option<string>)
    requires s.bound == t.bound
    ensures Closing(s, intent, mark, verified, error) == Closing(t, intent, mark, verified, error)
  {
  }

  function VerdictOf(s: Store, intent: CleanupIntent, w: World): Verdict
    requires Existing(s, intent).Some?
  {
    Settle(s, Existing(s, intent).value, Captured(s, intent, w), w)
  }

  function VerdictError(verdict: Verdict): Option<string> {
    if verdict.Completes? then None else Some(verdict.error)
  }

  lemma FinishUnfinished(s: Store, intent: CleanupIntent, w: World)
    requires Owning(s, intent) && w.killError == None
    requires !Recorded(Existing(s, intent)) && Unfinished(Existing(s, intent))
    requires VerdictOf(s, intent, w).Completes? ==> CanComplete(Existing(s, intent).value)
    ensures var verdict := VerdictOf(s, intent, w);
            && PlanOf(s, intent, w).outcome == Ok(VerdictError(verdict))
            && Finish(s, intent, w)
               == Closed(RecordedAs(Waited(Opened(s, intent, w), w), verdict, Captured(s, intent, w)),
                         intent, true, s.capture && (s.completion || w.completes), VerdictError(verdict))
  {
    hide Perform, Closing, Recording;
    var captured, verdict := Captured(s, intent, w), VerdictOf(s, intent, w);
    var verified := s.capture && (s.completion || w.completes);
    var after := Opened(s, intent, w);
    var waited := Waited(after, w);
    var recorded := RecordedAs(waited, verdict, captured);
    var closing := Closing(s, intent, true, verified, VerdictError(verdict));
    OpeningDone(s, intent, w, Waiting(s, w) + Settling(s, intent, verdict, captured, w));
    PerformMaybe(after, s.capture && !s.completion && w.completes, CompletionAppears,
                 Settling(s, intent, verdict, captured, w));
    PerformAppend(waited, Recording(verdict, captured), closing);
    RecordingDone(waited, verdict, captured);
    ClosingBound(s, recorded, intent, true, verified, VerdictError(verdict));
    ClosingDone(recorded, intent, true, verified, VerdictError(verdict));
  }

  /** The states inside a closing. */
  ghost predicate InClosing(s: Store, x: Store, mark: bool, verified: bool, error: Option<string>) {
    var s1 := if mark then Marked(s, error) else s;
    var s2 := if verified then Do(s1, RemoveCompletion) else s1;
    var s3 := Do(s2, Release);
    (x == s1 && (mark || x == s)) || x == s2 || x == s3 || x == Do(s3, Retire)
  }

  lemma ClosingStage(s: Store, intent: CleanupIntent, mark: bool, verified: bool, error: Option<string>, n: nat)
    requires 0 < n < |Closing(s, intent, mark, verified, error)|
    ensures InClosing(s, Perform(s, Closing(s, intent, mark, verified, error)[..n]), mark, verified, error)
  {
    hide Perform;
    var s1 := if mark then Marked(s, error) else s;
    var s2 := if verified then Do(s1, RemoveCompletion) else s1;
    var s3 := Do(s2, Release);
    var finishing := Finishing(s, intent, error);
    var rest := [Release] + finishing;
    PrefixMaybe(s, mark, MarkCleanup(CleanupComplete, error),
                (if verified then [RemoveCompletion] else []) + rest, n);
    var n1 := if mark then n - 1 else n;
    PrefixMaybe(s1, verified, RemoveCompletion, rest, n1);
    var n2 := if n1 == 0 || !verified then n1 else n1 - 1;
    PrefixMaybe(s2, true, Release, finishing, n2);
    var n3 := if n2 == 0 then 0 else n2 - 1;
    PrefixMaybe(s3, s.bound, Retire, [LogReceipt(intent, error)], n3);
    PerformNone(if s.bound then Do(s3, Retire) else s3);
  }

  /** A crash inside the closing: the next attempt closes the rest. */
  lemma ClosingResumes(s: Store, x: Store, intent: CleanupIntent, w: World, mark: bool, verified: bool,
                       error: Option<string>)
    requires Owning(s, intent) && s.pending == Some(intent) && w.killError == None
    requires if mark then Existing(s, intent).Some?
             else error == ErrorOf(s, intent) && (Existing(s, intent).Some? ==> Recorded(Existing(s, intent)))
    requires Existing(s, intent).None? ==> !s.alive
    requires verified == (s.captureLogged && s.completion)
    requires InClosing(s, x, mark, verified, error)
    ensures Resumes(x, intent, w, Ok(error), Closed(s, intent, mark, verified, error))
  {
    hide Perform, Finish, PlanOf;
    var crashed := Restart(x);
    if crashed.owned == None {
      FinishReleased(crashed, intent, w);
    } else if Existing(s, intent).Some? {
      FinishRecorded(crashed, intent, w);
    } else {
      FinishPreserved(crashed, intent, w);
    }
  }

  /** After a crash in `x` the next attempt ends as given, in the state given. */
  ghost predicate Resumes(x: Store, intent: CleanupIntent, w: World, outcome: Result<Option<string>, Fault>,
                          final: Store)
  {
    var crashed := Restart(x);
    && crashed.pending == Some(intent)
    && PlanOf(crashed, intent, w).outcome == outcome
    && Finish(crashed, intent, w) == final
  }

  /** The wait for the helper runs out. */
  predicate WaitFails(s: Store, w: World) {
    s.capture && !s.completion && !w.completes
  }

  /** A cleanup whose capture has yet to be recorded, in memory as replay gives it, that can be carried
      through and has a pane text to record, or fails whether or not it has. */
  ghost predicate Recordable(s: Store, intent: CleanupIntent, w: World) {
    && Owning(s, intent) && s.pending == Some(intent) && w.killError == None
    && s.capture == s.captureLogged && (s.completion ==> !s.alive)
    && !Recorded(Existing(s, intent)) && Unfinished(Existing(s, intent))
    && (VerdictOf(s, intent, w).Completes? ==> CanComplete(Existing(s, intent).value))
    && (Captured(s, intent, w).Some? || WaitFails(s, w))
  }

  /** The states up to the wait: a prefix of the opening, then the helper's completion. */
  ghost predicate BeforeRecording(s: Store, x: Store, intent: CleanupIntent, w: World) {
    || x == s
    || (Kills(s, intent) && x == s.(snapshot := Some(w.text)))
    || x == Opened(s, intent, w)
    || x == Waited(Opened(s, intent, w), w)
  }

  lemma BeforeRecordingResumes(s: Store, x: Store, intent: CleanupIntent, w: World)
    requires Recordable(s, intent, w) && BeforeRecording(s, x, intent, w)
    ensures Resumes(x, intent, w, Ok(VerdictError(VerdictOf(s, intent, w))), Finish(s, intent, w))
    ensures Recordable(x, intent, w) && VerdictOf(x, intent, w) == VerdictOf(s, intent, w) && Restart(x) == x
  {
    hide Finish, PlanOf;
    assert Restart(x) == x;
    FinishUnfinished(s, intent, w);
    FinishUnfinished(x, intent, w);
  }

  /** The states while the capture is being recorded. */
  ghost predicate InRecording(s: Store, x: Store, verdict: Verdict, captured: Option<string>) {
    || x == s.(snapshot := Some(captured.GetOr("")))
    || x == RecordedAs(s, verdict, captured)
    || x == RecordedAs(s, verdict, captured).(capture := s.capture)
  }

  lemma InRecordingResumes(s: Store, x: Store, intent: CleanupIntent, w: World)
    requires Recordable(s, intent, w) && Opened(s, intent, w) == s && Waited(s, w) == s
    requires InRecording(s, x, VerdictOf(s, intent, w), Captured(s, intent, w))
    ensures Resumes(x, intent, w, Ok(VerdictError(VerdictOf(s, intent, w))), Finish(s, intent, w))
  {
    hide Finish, PlanOf;
    FinishUnfinished(s, intent, w);
    if x == s.(snapshot := Some(Captured(s, intent, w).GetOr(""))) {
      FinishUnfinished(x, intent, w);
    } else if VerdictOf(s, intent, w).Completes? {
      FinishPreserved(Restart(x), intent, w);
    } else {
      FinishUnfinished(Restart(x), intent, w);
    }
  }

  lemma OpeningStage(s: Store, intent: CleanupIntent, w: World, n: nat)
    requires n <= |Opening(s, intent, w)|
    ensures var x := Perform(s, Opening(s, intent, w)[..n]);
            || x == s || x == Opened(s, intent, w)
            || (Kills(s, intent) && Existing(s, intent).Some? && x == s.(snapshot := Some(w.text)))
  {
    hide Perform;
    PerformNone(s);
    if n == |Opening(s, intent, w)| {
      OpeningDone(s, intent, w, []);
      PerformNone(Opened(s, intent, w));
      assert Opening(s, intent, w)[..n] == Opening(s, intent, w) + [];
    } else if n == 1 {
      PerformOne(s, SaveSnapshot(w.text));
      assert Opening(s, intent, w)[..n] == [SaveSnapshot(w.text)];
    }
  }

  /** Where a crash can find an attempt that records a capture. */
  lemma RecordableStage(s: Store, intent: CleanupIntent, w: World, n: nat)
    requires Recordable(s, intent, w) && n < |PlanOf(s, intent, w).effects|
    ensures var x := Perform(s, PlanOf(s, intent, w).effects[..n]);
            BeforeRecording(s, x, intent, w) || FromRecording(s, x, intent, w)
  {
    hide Perform, Settling, Opened, Opening, Waited, FromRecording;
    var captured, verdict := Captured(s, intent, w), VerdictOf(s, intent, w);
    var after := Opened(s, intent, w);
    var settling := Settling(s, intent, verdict, captured, w);
    var opening := Opening(s, intent, w);
    PerformPrefix(s, opening, Waiting(s, w) + settling, n);
    if n <= |opening| {
      OpeningStage(s, intent, w, n);
    } else {
      OpeningDone(s, intent, w, []);
      assert opening + [] == opening;
      PerformNone(after);
      WaitingStage(s, intent, w, n - |opening|);
    }
  }

  ghost predicate FromRecording(s: Store, x: Store, intent: CleanupIntent, w: World)
    requires Existing(s, intent).Some?
  {
    var waited := Waited(Opened(s, intent, w), w);
    var verdict, captured := VerdictOf(s, intent, w), Captured(s, intent, w);
    || InRecording(waited, x, verdict, captured)
    || InClosing(RecordedAs(waited, verdict, captured), x, true, s.capture && (s.completion || w.completes),
                 VerdictError(verdict))
  }

  lemma WaitingStage(s: Store, intent: CleanupIntent, w: World, n: nat)
    requires Existing(s, intent).Some?
    requires n < |Waiting(s, w) + Settling(s, intent, VerdictOf(s, intent, w), Captured(s, intent, w), w)|
    ensures var settling := Settling(s, intent, VerdictOf(s, intent, w), Captured(s, intent, w), w);
            var x := Perform(Opened(s, intent, w), (Waiting(s, w) + settling)[..n]);
            x == Opened(s, intent, w) || x == Waited(Opened(s, intent, w), w) || FromRecording(s, x, intent, w)
  {
    hide Perform, Settling, FromRecording;
    var after := Opened(s, intent, w);
    var settling := Settling(s, intent, VerdictOf(s, intent, w), Captured(s, intent, w), w);
    PrefixMaybe(after, s.capture && !s.completion && w.completes, CompletionAppears, settling, n);
    var rest := n - |Waiting(s, w)|;
    if rest > 0 {
      SettlingStage(s, intent, w, rest);
    } else {
      PerformNone(Waited(after, w));
    }
  }

  lemma SettlingStage(s: Store, intent: CleanupIntent, w: World, n: nat)
    requires Existing(s, intent).Some?
    requires 0 < n < |Settling(s, intent, VerdictOf(s, intent, w), Captured(s, intent, w), w)|
    ensures var settling := Settling(s, intent, VerdictOf(s, intent, w), Captured(s, intent, w), w);
            FromRecording(s, Perform(Waited(Opened(s, intent, w), w), settling[..n]), intent, w)
  {
    hide Perform, Closing, RecordedAs, InClosing, InRecording;
    var captured, verdict := Captured(s, intent, w), VerdictOf(s, intent, w);
    var verified, error := s.capture && (s.completion || w.completes), VerdictError(verdict);
    var waited := Waited(Opened(s, intent, w), w);
    var recorded := RecordedAs(waited, verdict, captured);
    var closing := Closing(s, intent, true, verified, error);
    PerformPrefix(waited, Recording(verdict, captured), closing, n);
    if n <= 3 {
      RecordingStage(waited, verdict, captured, n);
    } else {
      RecordingDone(waited, verdict, captured);
      RecordedKeepsRest(waited, intent, verdict, captured);
      ClosingBound(s, recorded, intent, true, verified, error);
      ClosingStage(recorded, intent, true, verified, error, n - 3);
    }
  }

  lemma RecordingStage(s: Store, verdict: Verdict, captured: Option<string>, n: nat)
    requires 0 < n <= 3
    ensures InRecording(s, Perform(s, Recording(verdict, captured)[..n]), verdict, captured)
  {
    hide Perform;
    var save := SaveSnapshot(captured.GetOr(""));
    var record := RecordCapture(if verdict.Completes? then Complete else Failed);
    PrefixMaybe(s, true, save, [record] + [ForgetCapture], n);
    PrefixMaybe(Do(s, save), true, record, [ForgetCapture], n - 1);
    if n == 3 {
      assert [ForgetCapture][..1] == [ForgetCapture];
      PerformOne(Do(Do(s, save), record), ForgetCapture);
    } else {
      PerformNone(Do(Do(s, save), record));
    }
  }

  lemma RecordableResumes(s: Store, x: Store, intent: CleanupIntent, w: World)
    requires Recordable(s, intent, w)
    requires BeforeRecording(s, x, intent, w) || FromRecording(s, x, intent, w)
    ensures Resumes(x, intent, w, Ok(VerdictError(VerdictOf(s, intent, w))), Finish(s, intent, w))
  {
    hide Finish, PlanOf, Recordable;
    if BeforeRecording(s, x, intent, w) {
      BeforeRecordingResumes(s, x, intent, w);
    } else {
      var waited := Waited(Opened(s, intent, w), w);
      BeforeRecordingResumes(s, waited, intent, w);
      FromRecordingResumes(s, waited, x, intent, w);
    }
  }

  lemma FromRecordingResumes(s: Store, waited: Store, x: Store, intent: CleanupIntent, w: World)
    requires Recordable(s, intent, w) && Recordable(waited, intent, w)
    requires waited == Waited(Opened(s, intent, w), w) && VerdictOf(waited, intent, w) == VerdictOf(s, intent, w)
    requires Finish(waited, intent, w) == Finish(s, intent, w) && FromRecording(s, x, intent, w)
    ensures Resumes(x, intent, w, Ok(VerdictError(VerdictOf(s, intent, w))), Finish(s, intent, w))
  {
    hide Finish, PlanOf, InClosing, InRecording, Resumes, Closed;
    var verdict, captured := VerdictOf(s, intent, w), Captured(s, intent, w);
    assert Captured(waited, intent, w) == captured;
    if InRecording(waited, x, verdict, captured) {
      InRecordingResumes(waited, x, intent, w);
    } else {
      FinishUnfinished(s, intent, w);
      ClosingResumes(RecordedAs(waited, verdict, captured), x, intent, w, true,
                     s.capture && (s.completion || w.completes), VerdictError(verdict));
    }
  }

  /** An attempt with nothing left to record. */
  lemma PreservedResumes(s: Store, intent: CleanupIntent, w: World, n: nat)
    requires Inv(s, intent) && Owning(s, intent) && s.pending == Some(intent) && Restart(s) == s
    requires w.killError == None && n < |PlanOf(s, intent, w).effects|
    requires !Recorded(Existing(s, intent)) && !Unfinished(Existing(s, intent))
    ensures Resumes(Perform(s, PlanOf(s, intent, w).effects[..n]), intent, w, Ok(None), Finish(s, intent, w))
  {
    hide Perform, Finish, Closing, InClosing, Closed;
    var mark, verified := Existing(s, intent).Some?, s.capture && s.completion;
    var opening, closing := Opening(s, intent, w), Closing(s, intent, mark, verified, None);
    var after := Opened(s, intent, w);
    FinishPreserved(s, intent, w);
    PerformPrefix(s, opening, closing, n);
    if n <= |opening| {
      OpeningStage(s, intent, w, n);
      var x := Perform(s, opening[..n]);
      assert Restart(x) == x && Existing(x, intent) == Existing(s, intent) && x.pending == s.pending;
      assert Opened(x, intent, w) == after && x.completion == s.completion;
      FinishPreserved(x, intent, w);
    } else {
      OpeningDone(s, intent, w, []);
      assert opening + [] == opening;
      PerformNone(after);
      ClosingBound(s, after, intent, mark, verified, None);
      ClosingStage(after, intent, mark, verified, None, n - |opening|);
      ClosingResumes(after, Perform(after, closing[..n - |opening|]), intent, w, mark, verified, None);
    }
  }

  /** The attempt has a text to record, if it records one: the pane is there, or a snapshot of it is. */
  predicate HasText(s: Store, intent: CleanupIntent, w: World) {
    s.owned.Some? && !Recorded(Existing(s, intent)) && Unfinished(Existing(s, intent))
    ==> Captured(s, intent, w).Some?
  }

  /** A crash after the first `n` effects of an attempt: taken up again in the same world, the cleanup
      reaches exactly the state of the uninterrupted run, log, manifest, snapshot and ownership alike, and
      reports the same preservation error. */
  ghost predicate ResumesAt(s: Store, intent: CleanupIntent, w: World, n: nat)
    requires n <= |PlanOf(s, intent, w).effects|
  {
    Resumes(Perform(s, PlanOf(s, intent, w).effects[..n]), intent, w, PlanOf(s, intent, w).outcome,
            Finish(s, intent, w))
  }

  /** For an attempt that would succeed, begun in memory as replay gives it: a crash after any of its
      effects is made good if and only if there is a text to record or the wait for the helper fails. */
  lemma {:induction false} ResumeReachesSameStateIff(s: Store, intent: CleanupIntent, w: World)
    requires Inv(s, intent) && s.pending == Some(intent) && Restart(s) == s && PlanOf(s, intent, w).outcome.Ok?
    ensures (forall n: nat | n < |PlanOf(s, intent, w).effects| :: ResumesAt(s, intent, w, n))
       <==> HasText(s, intent, w) || WaitFails(s, w)
  {
    hide PlanOf, Inv, HasText, ResumesAt;
    if HasText(s, intent, w) || WaitFails(s, w) {
      forall n: nat | n < |PlanOf(s, intent, w).effects| ensures ResumesAt(s, intent, w, n) {
        ResumeReachesSameState(s, intent, w, n);
      }
    } else {
      EmptySnapshotDiffers(s, intent, w);
    }
  }

  lemma {:induction false} ResumeReachesSameState(s: Store, intent: CleanupIntent, w: World, n: nat)
    requires Inv(s, intent) && s.pending == Some(intent) && Restart(s) == s
    requires PlanOf(s, intent, w).outcome.Ok? && (HasText(s, intent, w) || WaitFails(s, w))
    requires n < |PlanOf(s, intent, w).effects|
    ensures ResumesAt(s, intent, w, n)
  {
    hide PlanOf, Perform, Finish, HasText;
    var calm := w.(killError := None);
    NoKillError(s, intent, w);
    SameText(s, intent, w);
    CalmResumes(s, intent, calm, n);
    var crashed := Restart(Perform(s, PlanOf(s, intent, w).effects[..n]));
    PerformNeverRevives(s, PlanOf(s, intent, w).effects[..n]);
    if w.killError.Some? {
      DeadOrReleased(s, intent, w);
      PlanWithoutKill(crashed, intent, w);
    }
  }

  lemma SameText(s: Store, intent: CleanupIntent, w: World)
    ensures HasText(s, intent, w) == HasText(s, intent, w.(killError := None))
  {
  }

  /** Whether killing would fail does not matter to an attempt that succeeds. */
  lemma NoKillError(s: Store, intent: CleanupIntent, w: World)
    requires PlanOf(s, intent, w).outcome.Ok?
    ensures PlanOf(s, intent, w) == PlanOf(s, intent, w.(killError := None))
    ensures Finish(s, intent, w) == Finish(s, intent, w.(killError := None))
  {
  }

  lemma DeadOrReleased(s: Store, intent: CleanupIntent, w: World)
    requires Inv(s, intent) && PlanOf(s, intent, w).outcome.Ok? && w.killError.Some?
    ensures s.owned == None || !s.alive
  {
  }

  lemma {:induction false} PerformNeverRevives(s: Store, effects: seq<Effect>)
    ensures (s.owned == None ==> Perform(s, effects).owned == None) && (!s.alive ==> !Perform(s, effects).alive)
  {
    hide Do;
    if effects != [] {
      PerformNeverRevives(s, effects[..|effects| - 1]);
      DoNeverRevives(Perform(s, effects[..|effects| - 1]), effects[|effects| - 1]);
    }
  }

  lemma DoNeverRevives(s: Store, effect: Effect)
    ensures (s.owned == None ==> Do(s, effect).owned == None) && (!s.alive ==> !Do(s, effect).alive)
  {
  }

  lemma PlanWithoutKill(s: Store, intent: CleanupIntent, w: World)
    requires s.owned == None || !s.alive
    ensures PlanOf(s, intent, w) == PlanOf(s, intent, w.(killError := None))
    ensures Finish(s, intent, w) == Finish(s, intent, w.(killError := None))
  {
  }

  lemma CalmResumes(s: Store, intent: CleanupIntent, w: World, n: nat)
    requires Inv(s, intent) && s.pending == Some(intent) && Restart(s) == s && w.killError == None
    requires PlanOf(s, intent, w).outcome.Ok? && (HasText(s, intent, w) || WaitFails(s, w))
    requires n < |PlanOf(s, intent, w).effects|
    ensures ResumesAt(s, intent, w, n)
  {
    hide Perform, Finish, InClosing, Closed, Resumes;
    var effects := PlanOf(s, intent, w).effects;
    if s.owned.None? {
      ReleasedResumes(s, intent, w, n);
    } else if Recorded(Existing(s, intent)) {
      RecordedResumes(s, intent, w, n);
    } else if !Unfinished(Existing(s, intent)) {
      PreservedResumes(s, intent, w, n);
    } else {
      FinishUnfinished(s, intent, w);
      RecordableStage(s, intent, w, n);
      RecordableResumes(s, Perform(s, effects[..n]), intent, w);
    }
  }

  /** Without a text the attempt saves an empty one. After a crash right there the next attempt takes it
      for the pane's text and ends differently. */
  lemma EmptySnapshotDiffers(s: Store, intent: CleanupIntent, w: World)
    requires Inv(s, intent) && s.pending == Some(intent) && Restart(s) == s && PlanOf(s, intent, w).outcome.Ok?
    requires !HasText(s, intent, w) && !WaitFails(s, w)
    ensures var n := |Waiting(s, w)| + 1; n < |PlanOf(s, intent, w).effects| && !ResumesAt(s, intent, w, n)
  {
    hide Perform, Finish;
    var n := |Waiting(s, w)| + 1;
    var verdict := VerdictOf(s, intent, w);
    var settling := Settling(s, intent, verdict, None, w);
    var save := SaveSnapshot("");
    assert Opening(s, intent, w) == [];
    assert PlanOf(s, intent, w).effects == Waiting(s, w) + settling by {
      assert [] + (Waiting(s, w) + settling) == Waiting(s, w) + settling;
    }
    PrefixMaybe(s, s.capture && !s.completion && w.completes, CompletionAppears, settling, n);
    assert settling[..1] == [save];
    PerformOne(Waited(s, w), save);
    EmptySnapshotVerdict(s, Waited(s, w).(snapshot := Some("")), intent, w);
  }

  lemma EmptySnapshotVerdict(s: Store, x: Store, intent: CleanupIntent, w: World)
    requires Inv(s, intent) && s.pending == Some(intent) && Restart(s) == s && PlanOf(s, intent, w).outcome.Ok?
    requires !HasText(s, intent, w) && !WaitFails(s, w) && x == Waited(s, w).(snapshot := Some(""))
    ensures PlanOf(s, intent, w).outcome == Ok(Some(SNAPSHOT_UNAVAILABLE))
    ensures Restart(x) == x
    ensures PlanOf(x, intent, w).outcome in {Ok(None), Ok(Some(PIPE_UNAVAILABLE)), Err(CannotComplete)}
    ensures PIPE_UNAVAILABLE != SNAPSHOT_UNAVAILABLE
  {
    hide Settling, Waiting, Opening, Closing;
    assert |PIPE_UNAVAILABLE| != |SNAPSHOT_UNAVAILABLE|;
  }

  /** A retry in the same process is the same thing as long as the capture is not forgotten. */
  lemma RetryReachesSameState(s: Store, intent: CleanupIntent, w: World, n: nat)
    requires Inv(s, intent) && s.pending == Some(intent) && Restart(s) == s && PlanOf(s, intent, w).outcome.Ok?
    requires HasText(s, intent, w) || WaitFails(s, w)
    requires n < |PlanOf(s, intent, w).effects|
    requires var x := Perform(s, PlanOf(s, intent, w).effects[..n]); x.capture == x.captureLogged
    ensures var x := Perform(s, PlanOf(s, intent, w).effects[..n]);
            PlanOf(x, intent, w).outcome == PlanOf(s, intent, w).outcome && Finish(x, intent, w) == Finish(s, intent, w)
  {
    hide PlanOf, Perform, Finish, Inv, HasText;
    ResumeReachesSameState(s, intent, w, n);
  }

  /** Once it is forgotten, a retry in the same process is never blocked, but it knows nothing of the
      helper: its completion file stays, and a capture that is not complete has failed for want of it. */
  lemma RetryWithoutCapture(s: Store, intent: CleanupIntent, w: World)
    requires Inv(s, intent) && Owning(s, intent) && !s.capture && w.killError == None
    ensures var outcome := PlanOf(s, intent, w).outcome;
            && outcome.Ok? && Finish(s, intent, w).completion == s.completion
            && (!Recorded(Existing(s, intent)) ==>
                  outcome.value == if !Unfinished(Existing(s, intent)) then None
                                   else Some(if Captured(s, intent, w).Some? then PIPE_UNAVAILABLE
                                             else SNAPSHOT_UNAVAILABLE))
  {
    hide Finish, PlanOf;
    if Recorded(Existing(s, intent)) {
      FinishRecorded(s, intent, w);
    } else if !Unfinished(Existing(s, intent)) {
      FinishPreserved(s, intent, w);
    } else {
      FinishUnfinished(s, intent, w);
    }
  }

  lemma ReleasedResumes(s: Store, intent: CleanupIntent, w: World, n: nat)
    requires Inv(s, intent) && s.pending == Some(intent) && s.owned == None && Restart(s) == s
    requires n < |PlanOf(s, intent, w).effects|
    ensures Resumes(Perform(s, PlanOf(s, intent, w).effects[..n]), intent, w,
                    PlanOf(s, intent, w).outcome, Finish(s, intent, w))
  {
    hide Perform, Finish;
    FinishReleased(s, intent, w);
    PrefixMaybe(s, s.bound, Retire, [LogReceipt(intent, ErrorOf(s, intent))], n);
    var x := if n == 0 then s else Do(s, Retire);
    PerformNone(x);
    FinishReleased(x, intent, w);
  }

  lemma RecordedResumes(s: Store, intent: CleanupIntent, w: World, n: nat)
    requires Inv(s, intent) && s.pending == Some(intent) && Restart(s) == s && w.killError == None
    requires Owning(s, intent) && Recorded(Existing(s, intent)) && n < |PlanOf(s, intent, w).effects|
    ensures Resumes(Perform(s, PlanOf(s, intent, w).effects[..n]), intent, w,
                    PlanOf(s, intent, w).outcome, Finish(s, intent, w))
  {
    hide Perform, Finish, InClosing, Closed;
    FinishRecorded(s, intent, w);
    var verified, error := s.capture && s.completion, ErrorOf(s, intent);
    if n == 0 {
      PerformNone(s);
    } else {
      ClosingStage(s, intent, false, verified, error, n);
      ClosingResumes(s, Perform(s, Closing(s, intent, false, verified, error)[..n]), intent, w, false, verified, error);
    }
  }
}
