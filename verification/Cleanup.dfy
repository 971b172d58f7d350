/** The crash-resumable cleanup of one owned pane (src/driver/run_lifecycle.rs, src/run_assets.rs): what
    it does to the durable state, effect by effect. Every effect can fail, and a crash can follow any of
    them, so an attempt performs a prefix of its plan. */
module Cleanup {
  import opened Base
  import opened DriverLog

  datatype Phase = Pending | Starting | Capturing | Complete | Failed

  datatype CleanupStatus = CleanupPending | CleanupFailed | CleanupComplete

  /** What the manifest says of one activation's capture. */
  datatype Asset = Asset(
    generation: nat,
    phase: Phase,
    preservation: Phase,
    acknowledged: bool,
    captureComplete: bool,
    cleanup: CleanupStatus,
    cleanupError: Option<string>)

  datatype LogEntry = Released | Receipt(intent: CleanupIntent, error: Option<string>)

  /** `capture` is the pipe capture that the process knows of and `captureLogged` the one that replay
      would give it; `killed` is history, the pane text when the cleanup killed the pane. */
  datatype Store = Store(
    owned: Option<Pane>,
    pending: Option<CleanupIntent>,
    log: seq<LogEntry>,
    asset: Option<Asset>,
    alive: bool,
    snapshot: Option<string>,
    completion: bool,
    capture: bool,
    captureLogged: bool,
    bound: bool,
    killed: Option<string>)

  /** What one attempt meets: the pane's text, whether killing fails, and whether the capture helper
      publishes its completion before the wait ends. */
  datatype World = World(text: string, killError: Option<string>, completes: bool, waitError: string)

  datatype Effect =
    | SaveSnapshot(text: string)
    | Kill(text: string)
    | CompletionAppears
    | RecordCapture(phase: Phase)
    | ForgetCapture
    | MarkCleanup(status: CleanupStatus, error: Option<string>)
    | RemoveCompletion
    | Release
    | Retire
    | LogReceipt(intent: CleanupIntent, error: Option<string>)

  datatype Fault = WrongRun | DifferentAllocation | IncompleteAssets | KillFailed | CannotComplete | Interrupted

  datatype Plan = Plan(effects: seq<Effect>, outcome: Result<Option<string>, Fault>)

  const PIPE_UNAVAILABLE := "pipe capture completion is unavailable"
  const SNAPSHOT_UNAVAILABLE := "final capture snapshot is unavailable"

  function Do(s: Store, effect: Effect): Store {
    match effect
    case SaveSnapshot(text) => s.(snapshot := Some(text))
    case Kill(text) => s.(alive := false, killed := Some(text))
    case CompletionAppears => s.(completion := true)
    case RecordCapture(phase) =>
      if s.asset.None? then s
      else s.(asset := Some(s.asset.value.(phase := phase, preservation := phase, captureComplete := phase.Complete?)))
    case ForgetCapture => s.(capture := false)
    case MarkCleanup(status, error) =>
      if s.asset.None? then s else s.(asset := Some(s.asset.value.(cleanup := status, cleanupError := error)))
    case RemoveCompletion => s.(completion := false)
    case Release => s.(owned := None, log := s.log + [Released], capture := false, captureLogged := false)
    case Retire => s.(bound := false)
    case LogReceipt(intent, error) => s.(pending := None, log := s.log + [Receipt(intent, error)])
  }

  function Perform(s: Store, effects: seq<Effect>): Store {
    if effects == [] then s else Do(Perform(s, effects[..|effects| - 1]), effects[|effects| - 1])
  }

  /** A restart rebuilds memory from the log. */
  function Restart(s: Store): Store {
    s.(capture := s.captureLogged)
  }

  function Existing(s: Store, intent: CleanupIntent): Option<Asset> {
    if s.asset.Some? && s.asset.value.generation == intent.generation then s.asset else None
  }

  /** activation_can_complete. */
  predicate CanComplete(asset: Asset) {
    asset.acknowledged && asset.phase == Capturing && asset.preservation == Capturing
  }

  predicate Recorded(existing: Option<Asset>) {
    existing.Some? && existing.value.cleanup == CleanupComplete
  }

  /** The capture of an existing activation has not been completed yet. */
  predicate Unfinished(existing: Option<Asset>) {
    existing.Some? && !(existing.value.phase == Complete && existing.value.captureComplete)
  }

  predicate Kills(s: Store, intent: CleanupIntent) {
    !Recorded(Existing(s, intent)) && !(s.capture && s.completion) && s.alive
  }

  function Opening(s: Store, intent: CleanupIntent, w: World): seq<Effect> {
    if !Kills(s, intent) then []
    else (if Existing(s, intent).Some? then [SaveSnapshot(w.text)] else []) + [Kill(w.text)]
  }

  /** The pane text that the attempt works with, once the opening is done. */
  function Captured(s: Store, intent: CleanupIntent, w: World): Option<string> {
    if Kills(s, intent) then Some(w.text)
    else if Existing(s, intent).Some? then s.snapshot
    else None
  }

  datatype Verdict = Completes | Fails(error: string)

  /** Which way the capture of an unfinished activation is settled. */
  function Settle(s: Store, asset: Asset, captured: Option<string>, w: World): Verdict {
    if s.capture && !s.completion && !w.completes then Fails(w.waitError)
    else if s.capture && captured.Some? && asset.acknowledged then Completes
    else Fails(if captured.Some? then PIPE_UNAVAILABLE else SNAPSHOT_UNAVAILABLE)
  }

  function Waiting(s: Store, w: World): seq<Effect> {
    if s.capture && !s.completion && w.completes then [CompletionAppears] else []
  }

  function Recording(verdict: Verdict, captured: Option<string>): seq<Effect> {
    [SaveSnapshot(captured.GetOr(""))]
    + ([RecordCapture(if verdict.Completes? then Complete else Failed)] + [ForgetCapture])
  }

  function Finishing(s: Store, intent: CleanupIntent, error: Option<string>): seq<Effect> {
    (if s.bound then [Retire] else []) + [LogReceipt(intent, error)]
  }

  function Closing(s: Store, intent: CleanupIntent, mark: bool, verified: bool, error: Option<string>): seq<Effect> {
    (if mark then [MarkCleanup(CleanupComplete, error)] else [])
    + ((if verified then [RemoveCompletion] else [])
       + ([Release] + Finishing(s, intent, error)))
  }

  function Settling(s: Store, intent: CleanupIntent, verdict: Verdict, captured: Option<string>, w: World)
    : seq<Effect>
  {
    Recording(verdict, captured)
    + Closing(s, intent, true, s.capture && (s.completion || w.completes),
              if verdict.Completes? then None else Some(verdict.error))
  }

  /** complete_tmux_pane_cleanup: its effects in order and how it ends when each of them succeeds. */
  function PlanOf(s: Store, intent: CleanupIntent, w: World): Plan {
    var existing := Existing(s, intent);
    if intent.generation != intent.pane.generation then Plan([], Err(WrongRun))
    else if s.owned.Some? && s.owned.value != intent.pane then Plan([], Err(DifferentAllocation))
    else if s.owned.None? then
      if existing.Some? && !Recorded(existing) then Plan([], Err(IncompleteAssets))
      else
        var error := if existing.Some? then existing.value.cleanupError else None;
        Plan(Finishing(s, intent, error), Ok(error))
    else if Kills(s, intent) && w.killError.Some? then
      Plan(if existing.Some? then [SaveSnapshot(w.text)] + [MarkCleanup(CleanupFailed, w.killError)] else [],
           Err(KillFailed))
    else if Recorded(existing) then
      Plan(Closing(s, intent, false, s.capture && s.completion, existing.value.cleanupError),
           Ok(existing.value.cleanupError))
    else if !Unfinished(existing) then
      Plan(Opening(s, intent, w) + Closing(s, intent, existing.Some?, s.capture && s.completion, None), Ok(None))
    else
      var captured := Captured(s, intent, w);
      var verdict := Settle(s, existing.value, captured, w);
      if verdict.Completes? && !CanComplete(existing.value) then
        Plan(Opening(s, intent, w) + Waiting(s, w), Err(CannotComplete))
      else
        var error := if verdict.Completes? then None else Some(verdict.error);
        Plan(Opening(s, intent, w) + (Waiting(s, w) + Settling(s, intent, verdict, captured, w)), Ok(error))
  }

  lemma {:induction false} PerformAppend(s: Store, first: seq<Effect>, rest: seq<Effect>)
    ensures Perform(s, first + rest) == Perform(Perform(s, first), rest)
  {
    if rest == [] {
      assert first + rest == first;
    } else {
      PerformAppend(s, first, rest[..|rest| - 1]);
      assert (first + rest)[..|first + rest| - 1] == first + rest[..|rest| - 1];
    }
  }

  lemma PerformNone(s: Store)
    ensures Perform(s, []) == s
  {
  }

  lemma PerformOne(s: Store, effect: Effect)
    ensures Perform(s, [effect]) == Do(s, effect)
  {
    assert Perform(s, []) == s;
  }

  lemma PerformCons(s: Store, effect: Effect, rest: seq<Effect>)
    ensures Perform(s, [effect] + rest) == Perform(Do(s, effect), rest)
  {
    PerformOne(s, effect);
    PerformAppend(s, [effect], rest);
  }

  /** The optional effect that opens a sequence. */
  lemma PerformMaybe(s: Store, happens: bool, effect: Effect, rest: seq<Effect>)
    ensures Perform(s, (if happens then [effect] else []) + rest)
         == Perform(if happens then Do(s, effect) else s, rest)
  {
    PerformCons(s, effect, rest);
    assert [] + rest == rest;
  }

  /** A prefix of a plan in two parts is a prefix of the first, or the first and a prefix of the second. */
  lemma PerformPrefix(s: Store, first: seq<Effect>, rest: seq<Effect>, n: nat)
    requires n <= |first + rest|
    ensures Perform(s, (first + rest)[..n])
         == if n <= |first| then Perform(s, first[..n]) else Perform(Perform(s, first), rest[..n - |first|])
  {
    if n <= |first| {
      assert (first + rest)[..n] == first[..n];
    } else {
      assert (first + rest)[..n] == first + rest[..n - |first|];
      PerformAppend(s, first, rest[..n - |first|]);
    }
  }
}
