/** The driver over all that is asked of it: any requests in any order, with any failures in them and any
    restarts between them (src/driver/mod.rs). */
module DriverRequests {
  import opened Base
  import opened Delivery
  import opened DriverLog
  import opened DriverSteps
  import opened DriverInvariants
  import opened DriverRuns
  import opened DriverTheorems
  import opened DriverService
  import opened DriverWorlds

  /** `Reload` is a crash or a restart, the others are what the driver's requests come down to. */
  datatype Request =
    | Reload
    | EnsurePanes(requested: Binding, window: Option<string>, panes: seq<(string, PaneWorld)>, bindOk: bool)
    | Actuate(rounds: seq<(string, ActivationWorld)>)
    | Message(id: string, message: string, hash: string, activation: Option<bool>, sendOk: bool, publishOk: bool,
              startOk: bool, finishOk: bool)
    | Resolve(startedSeq: nat, wasSubmitted: bool, appendOk: bool)
    | CleanUp(id: string, reason: string, cleanup: CleanupWorld)

  /** The window that is requested is the one in the request. */
  predicate WellPosed(request: Request) {
    request.EnsurePanes? ==> request.requested.windowId == request.window.GetOr("")
  }

  function Firsts<A, B>(pairs: seq<(A, B)>): (r: seq<A>)
    ensures |r| == |pairs|
  {
    seq(|pairs|, i requires 0 <= i < |pairs| => pairs[i].0)
  }

  function Seconds<A, B>(pairs: seq<(A, B)>): (r: seq<B>)
    ensures |r| == |pairs|
  {
    seq(|pairs|, i requires 0 <= i < |pairs| => pairs[i].1)
  }

  lemma InvMeans(l: Live)
    requires Inv(l)
    ensures Keyed(l.maps) && l.eventCount == |l.log| <= U64_MAX
  {
  }

  /** One request: a run of protocol steps that keeps the driver's invariant and accounts for every input. */
  method HandleRequest(driver: RuntimeDriverService, request: Request) returns (ghost steps: seq<Step>)
    requires driver.Counted() && Inv(driver.View()) && Accounts(driver.log, driver.history) && WellPosed(request)
    modifies driver
    ensures driver.Counted() && Inv(driver.View()) && Accounts(driver.log, driver.history)
    ensures driver.View() == Run(old(driver.View()), steps)
  {
    hide Inv, Accounts, Exec, Run, Quiet;
    ghost var l := driver.View();
    InvMeans(l);
    RunNothing(l);
    match request {
      case Reload =>
        RunOneMore(l, [], Restart);
        driver.Load();
        steps := [] + [Restart];
      case EnsurePanes(requested, window, panes, bindOk) =>
        var r, more := driver.EnsureTmuxForActivations(requested, window, Firsts(panes), Seconds(panes), bindOk);
        QuietRunsAccount(l, more, driver.history);
        steps := more;
      case Actuate(rounds) =>
        var r, more := driver.ActuateActivations(Firsts(rounds), Seconds(rounds));
        steps := more;
      case Message(id, message, hash, activation, sendOk, publishOk, startOk, finishOk) =>
        var r, more := driver.SendMessage(id, message, hash, activation, sendOk, publishOk, startOk, finishOk);
        steps := more;
      case Resolve(startedSeq, wasSubmitted, appendOk) =>
        steps := ResolveOne(driver, startedSeq, wasSubmitted, appendOk);
      case CleanUp(id, reason, cleanup) =>
        var r, more := driver.RecoverPaneCleanup(id, reason, cleanup);
        QuietRunsAccount(l, more, driver.history);
        steps := more;
    }
    RunKeepsInv(l, steps);
  }

  method ResolveOne(driver: RuntimeDriverService, startedSeq: nat, wasSubmitted: bool, appendOk: bool)
    returns (ghost steps: seq<Step>)
    requires driver.Counted() && Keyed(driver.Maps()) && Accounts(driver.log, driver.history)
    modifies driver
    ensures driver.Counted() && Accounts(driver.log, driver.history)
    ensures driver.View() == Run(old(driver.View()), steps)
  {
    hide Accounts, Exec, Run, Keyed;
    ghost var l := driver.View();
    RunNothing(l);
    var r, key := driver.ResolveInputDelivery(startedSeq, wasSubmitted, appendOk);
    steps := [];
    if r != Err(BarrierConflict) {
      RunOneMore(l, [], Do(ResolutionOf(l.maps, key, wasSubmitted), appendOk));
      steps := [] + [Do(ResolutionOf(l.maps, key, wasSubmitted), appendOk)];
    }
  }

  /** From a fresh driver, any requests: what the driver is then is what a run of protocol steps makes of it; each
      submission in the log names an input that tmux took, that the ledger records, or that an operator said was
      submitted; and tmux was handed nothing but started inputs, each once. */
  method Serve(requests: seq<Request>) returns (driver: RuntimeDriverService, ghost steps: seq<Step>)
    requires forall request <- requests :: WellPosed(request)
    ensures fresh(driver) && driver.View() == Run(FRESH_START, steps)
    ensures SubmissionsKnown(driver.log, driver.history.Known())
    ensures driver.history.took <= ElementsOf(driver.history.sends) && SendsLogged(driver.log, driver.history.sends)
  {
    hide Inv, Exec, Run, WellPosed, SendsLogged, SubmissionsKnown;
    driver := new RuntimeDriverService();
    steps := [];
    RunNothing(FRESH_START);
    FreshStartInv();
    NothingToAccount();
    for i := 0 to |requests|
      invariant fresh(driver) && driver.Counted() && Inv(driver.View()) && Accounts(driver.log, driver.history)
      invariant driver.View() == Run(FRESH_START, steps)
    {
      var more := HandleRequest(driver, requests[i]);
      RunAppend(FRESH_START, steps, more);
      steps := steps + more;
    }
  }

  lemma NothingToAccount()
    ensures Accounts([], History([], {}, {}, {}))
  {
  }

  /** So a prompt or launch is filed as submitted in the log only if it is known to have been: the submission at
      `i` names the start of an input that tmux took, that the ledger records or an operator vouched for. */
  lemma SubmissionIsExplained(log: seq<Record>, h: History, i: nat)
    requires Accounts(log, h) && i < |log| && IsSubmission(log[i].event)
    ensures log[i].event.startedSeq.Some?
    ensures var s := log[i].event.startedSeq.value;
            s in h.recorded || s in h.resolved || (s in h.took && s in h.sends && 1 <= s && StartedAt(log, s - 1))
  {
    hide StartedAt;
    assert SubmitsKnown(log[i].event, h.Known());
    var s := log[i].event.startedSeq.value;
    if s in h.took {
      var j :| 0 <= j < |h.sends| && h.sends[j] == s;
    }
  }
}
