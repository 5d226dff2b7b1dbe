/** The monitor's polling loop: read the peers' reports, aggregate them when
    the run-level step moved, report the aggregate, and drive the checkpoint
    handler in its fixed order (an upload is only considered after a save). */
module Monitor {
  import opened Wrappers
  import opened Arguments
  import opened Metrics
  import opened Checkpoint

  /** The record sent to the tracking sink (`wandb.log`). */
  datatype Report = Report(loss: real, alivePeers: int, samples: int, performance: real, step: int)

  /** The outcomes the three collaborators report when called in this iteration. */
  datatype Collaborators = Collaborators(loadSucceeds: bool, saveSucceeds: bool, pushSucceeds: bool)

  /** What one poll of the store returns, the two clock readings of the
      iteration (the upload check and the upload), and the collaborators' outcomes. */
  datatype Poll = Poll(metricsDict: Option<seq<LocalMetrics>>, checkTime: nat, uploadTime: nat, env: Collaborators)

  /** The number of polls the script makes (`while time_x < 3`). */
  const PollCount := 3

  /** The aggregate reported for a non-empty set of reports. */
  function ReportOf(ms: seq<LocalMetrics>): Report
    requires ms != [] && TotalsOf(ms).sumMiniSteps != 0
  {
    var t := TotalsOf(ms);
    Report(AverageLoss(t), t.alivePeers, t.numSamples, t.sumPerf, MaxStep(ms))
  }

  /** The store returned reports and their largest step differs from the
      current step: only then does the iteration aggregate and schedule. */
  predicate Advances(currentStep: int, metricsDict: Option<seq<LocalMetrics>>)
  {
    metricsDict.Some? && metricsDict.value != [] && MaxStep(metricsDict.value) != currentStep
  }

  /** The calls the scheduling step makes, from the two decisions it reads off
      the handler before it moves any watermark. */
  function ScheduledCalls(due: bool, upload: Result<bool>, env: Collaborators, path: string, push: Call): seq<Call>
  {
    if !due then []
    else if !env.loadSucceeds || upload != Ok(true) then [LoadStateFromPeers(env.loadSucceeds)]
    else if !env.saveSucceeds then [LoadStateFromPeers(true), SaveOptimizerState(path, false)]
    else [LoadStateFromPeers(true), SaveOptimizerState(path, true), push]
  }

  /** How the scheduling step ends. */
  function ScheduledStatus(due: bool, upload: Result<bool>, env: Collaborators): Status
  {
    if !due then Completed
    else if !env.loadSucceeds then Raised(LoadStateFailed)
    else match upload
      case Err(e) => Raised(e)
      case Ok(false) => Completed
      case Ok(true) =>
        if !env.saveSucceeds then Raised(SaveOptimizerFailed)
        else if !env.pushSucceeds then Raised(PushToHubFailed)
        else Completed
  }

  /** The scheduling step on values: the handler's new state and the status,
      for configuration `c`, state `w`, step `step` and loss `loss`. */
  function Schedule(c: HandlerConfig, w: Watermarks, step: int, loss: real, checkTime: nat, uploadTime: nat,
                    env: Collaborators): (Watermarks, Status)
  {
    var due := SaveDue(c, w, step);
    var upload := UploadDue(c, w, checkTime);
    var push := PushToHub(c.repoPath, c.repoUrl, step, loss, env.pushSucceeds);
    (Watermarks(
       if due && env.loadSucceeds then step else w.previousStep,
       if due && env.loadSucceeds && upload == Ok(true) && env.saveSucceeds then uploadTime else w.previousTimestamp,
       w.calls + ScheduledCalls(due, upload, env, OptimizerStatePath(c.repoPath), push)),
     ScheduledStatus(due, upload, env))
  }

  /** The whole new state of the handler after the scheduling step for
      `step` and `loss`, and the status it ends with. */
  twostate predicate Scheduled(h: CheckpointHandler, step: int, loss: real, checkTime: nat, uploadTime: nat,
                               env: Collaborators, status: Status)
    reads h
  {
    (h.State(), status) == Schedule(h.Config(), old(h.State()), step, loss, checkTime, uploadTime, env)
  }

  /** The current step after one poll that returned `metricsDict`. */
  function StepAfter(currentStep: int, metricsDict: Option<seq<LocalMetrics>>): int
  {
    if Advances(currentStep, metricsDict) then MaxStep(metricsDict.value) else currentStep
  }

  /** The record sent to the tracking sink by one poll, if any. */
  function ReportAfter(args: MonitorArguments, currentStep: int, metricsDict: Option<seq<LocalMetrics>>): Option<Report>
  {
    if Advances(currentStep, metricsDict) && TotalsOf(metricsDict.value).sumMiniSteps != 0 && args.wandbProject.Some?
    then Some(ReportOf(metricsDict.value))
    else None
  }

  /** The exception a poll raises because of the data alone, before the handler is driven. */
  function DataRaises(currentStep: int, metricsDict: Option<seq<LocalMetrics>>): Option<Exception>
  {
    if metricsDict == Some([]) then Some(EmptyMetrics)
    else if Advances(currentStep, metricsDict) && TotalsOf(metricsDict.value).sumMiniSteps == 0 then Some(ZeroMiniSteps)
    else None
  }

  /** The current step after the given polls, starting from `start`. */
  function StepsAfter(start: int, polls: seq<Poll>): int
  {
    if polls == [] then start
    else StepAfter(StepsAfter(start, polls[..|polls| - 1]), polls[|polls| - 1].metricsDict)
  }

  /** The records sent to the tracking sink by the given polls, starting from `start`. */
  function ReportsAfter(args: MonitorArguments, start: int, polls: seq<Poll>): seq<Report>
  {
    if polls == [] then []
    else
      var before := polls[..|polls| - 1];
      var last := ReportAfter(args, StepsAfter(start, before), polls[|polls| - 1].metricsDict);
      ReportsAfter(args, start, before) + (if last.Some? then [last.value] else [])
  }

  /** One poll on values: the handler's new state and how the poll ends. The
      data may raise first; otherwise the handler is driven when checkpoints
      are stored and the step moved. */
  function PollStep(args: MonitorArguments, c: HandlerConfig, w: Watermarks, currentStep: int, poll: Poll): (Watermarks, Status)
  {
    var raised := DataRaises(currentStep, poll.metricsDict);
    if raised.Some? then (w, Raised(raised.value))
    else if args.storeCheckpoints && Advances(currentStep, poll.metricsDict) then
      var ms := poll.metricsDict.value;
      Schedule(c, w, MaxStep(ms), AverageLoss(TotalsOf(ms)), poll.checkTime, poll.uploadTime, poll.env)
    else (w, Completed)
  }

  /** The handler's state after the given polls, for a handler built at `startTime`. */
  function WatermarksAfter(args: MonitorArguments, startTime: nat, polls: seq<Poll>): Watermarks
  {
    if polls == [] then InitialWatermarks(startTime)
    else
      var before := polls[..|polls| - 1];
      PollStep(args, ConfigOf(args), WatermarksAfter(args, startTime, before), StepsAfter(0, before), polls[|polls| - 1]).0
  }

  /** How the poll at index `k` ends, after the polls before it. */
  function StatusAt(args: MonitorArguments, startTime: nat, polls: seq<Poll>, k: nat): Status
    requires k < |polls|
  {
    PollStep(args, ConfigOf(args), WatermarksAfter(args, startTime, polls[..k]), StepsAfter(0, polls[..k]), polls[k]).1
  }

  /** Each recorded status is the one its poll ends with. */
  predicate StatusesFit(args: MonitorArguments, startTime: nat, polls: seq<Poll>, statuses: seq<Status>)
    requires |statuses| <= |polls|
  {
    forall k :: 0 <= k < |statuses| ==> statuses[k] == StatusAt(args, startTime, polls, k)
  }

  /** What holds of a run after the polls that made `statuses`: every poll
      but the last ended normally, each ended as `StatusAt` says, the step and
      the records are the folds of those polls, and the records move. */
  predicate RunSoFar(args: MonitorArguments, startTime: nat, polls: seq<Poll>, statuses: seq<Status>,
                     currentStep: int, reports: seq<Report>)
  {
    && |statuses| <= |polls|
    && (forall k :: 0 <= k < |statuses| - 1 ==> statuses[k] == Completed)
    && StatusesFit(args, startTime, polls, statuses)
    && currentStep == StepsAfter(0, polls[..|statuses|])
    && reports == ReportsAfter(args, 0, polls[..|statuses|])
    && (args.wandbProject.None? ==> reports == [])
    && |reports| <= |statuses|
    && StepsMove(reports)
    && ((statuses == [] || statuses[|statuses| - 1] == Completed) && args.wandbProject.Some? ==>
          LastReportedStep(reports) == currentStep)
  }

  /** The folds over the first `t + 1` polls are those over the first `t`
      extended by poll `t`. */
  lemma FoldsExtend(args: MonitorArguments, startTime: nat, polls: seq<Poll>, t: nat)
    requires t < |polls|
    ensures StepsAfter(0, polls[..t + 1]) == StepAfter(StepsAfter(0, polls[..t]), polls[t].metricsDict)
    ensures ReportsAfter(args, 0, polls[..t + 1]) ==
      ReportsAfter(args, 0, polls[..t]) +
      (var r := ReportAfter(args, StepsAfter(0, polls[..t]), polls[t].metricsDict); if r.Some? then [r.value] else [])
    ensures WatermarksAfter(args, startTime, polls[..t + 1]) ==
      PollStep(args, ConfigOf(args), WatermarksAfter(args, startTime, polls[..t]), StepsAfter(0, polls[..t]), polls[t]).0
  {
    assert polls[..t + 1][..t] == polls[..t];
    assert polls[..t + 1][t] == polls[t];
  }

  /** A poll's status extends the record of the statuses before it. */
  lemma StatusesFitExtend(args: MonitorArguments, startTime: nat, polls: seq<Poll>, statuses: seq<Status>, status: Status)
    requires |statuses| < |polls|
    requires StatusesFit(args, startTime, polls, statuses)
    requires status == StatusAt(args, startTime, polls, |statuses|)
    ensures StatusesFit(args, startTime, polls, statuses + [status])
  {
  }

  /** A poll's status is the exception its data raises, when it raises one. */
  lemma PollStepRaises(args: MonitorArguments, c: HandlerConfig, w: Watermarks, currentStep: int, poll: Poll)
    ensures DataRaises(currentStep, poll.metricsDict).Some? ==>
      PollStep(args, c, w, currentStep, poll).1 == Raised(DataRaises(currentStep, poll.metricsDict).value)
  {
  }

  /** A poll's record, if any, carries the new step, which differs from the
      last one reported; a poll that ends normally without a record while a
      sink is configured leaves the step where it was. */
  lemma ReportsMove(args: MonitorArguments, currentStep: int, reports: seq<Report>,
                    metricsDict: Option<seq<LocalMetrics>>, status: Status)
    requires StepsMove(reports)
    requires args.wandbProject.Some? ==> LastReportedStep(reports) == currentStep
    requires DataRaises(currentStep, metricsDict).Some? ==> status.Raised?
    ensures var report := ReportAfter(args, currentStep, metricsDict);
      var reports' := reports + if report.Some? then [report.value] else [];
      && StepsMove(reports')
      && (status == Completed && args.wandbProject.Some? ==>
            LastReportedStep(reports') == StepAfter(currentStep, metricsDict))
  {
    var report := ReportAfter(args, currentStep, metricsDict);
    if report.Some? {
      assert report.value.step == StepAfter(currentStep, metricsDict) != currentStep;
    }
  }

  /** One more poll, made after a normal end of the previous one, extends the
      run by its outcome: the new step, its record if any, the handler's new
      state `w` and its status. */
  lemma RunExtend(args: MonitorArguments, startTime: nat, polls: seq<Poll>, statuses: seq<Status>,
                  currentStep: int, reports: seq<Report>,
                  newStep: int, report: Option<Report>, w: Watermarks, status: Status)
    requires |statuses| < |polls|
    requires RunSoFar(args, startTime, polls, statuses, currentStep, reports)
    requires statuses == [] || statuses[|statuses| - 1] == Completed
    requires newStep == StepAfter(currentStep, polls[|statuses|].metricsDict)
    requires report == ReportAfter(args, currentStep, polls[|statuses|].metricsDict)
    requires (w, status) == PollStep(args, ConfigOf(args), WatermarksAfter(args, startTime, polls[..|statuses|]),
                                     currentStep, polls[|statuses|])
    ensures RunSoFar(args, startTime, polls, statuses + [status], newStep,
                     reports + if report.Some? then [report.value] else [])
    ensures WatermarksAfter(args, startTime, polls[..|statuses| + 1]) == w
  {
    var t := |statuses|;
    FoldsExtend(args, startTime, polls, t);
    StatusesFitExtend(args, startTime, polls, statuses, status);
    PollStepRaises(args, ConfigOf(args), WatermarksAfter(args, startTime, polls[..t]), currentStep, polls[t]);
    ReportsMove(args, currentStep, reports, polls[t].metricsDict, status);
  }

  /** Without checkpoints a poll leaves the handler's state alone and ends with
      the exception its data raises, or normally. */
  lemma NoCheckpointsPoll(args: MonitorArguments, c: HandlerConfig, w: Watermarks, currentStep: int, poll: Poll,
                          status: Status)
    requires !args.storeCheckpoints
    requires var raised := DataRaises(currentStep, poll.metricsDict);
      status == if raised.Some? then Raised(raised.value) else Completed
    ensures (w, status) == PollStep(args, c, w, currentStep, poll)
  {
  }

  /** Polls that find no metrics leave the current step where it was, report
      nothing, leave the handler alone and all end normally. */
  lemma {:induction false} NoDataChangesNothing(args: MonitorArguments, start: int, startTime: nat, polls: seq<Poll>)
    requires forall k :: 0 <= k < |polls| ==> polls[k].metricsDict.None?
    ensures StepsAfter(start, polls) == start
    ensures ReportsAfter(args, start, polls) == []
    ensures WatermarksAfter(args, startTime, polls) == InitialWatermarks(startTime)
    ensures forall k :: 0 <= k < |polls| ==> StatusAt(args, startTime, polls, k) == Completed
  {
    if polls != [] {
      var before := polls[..|polls| - 1];
      assert forall k :: 0 <= k < |before| ==> before[k] == polls[k];
      NoDataChangesNothing(args, start, startTime, before);
    }
  }

  /** Without checkpoints the handler's state never leaves its initial value. */
  lemma {:induction false} NoCheckpointsKeepWatermarks(args: MonitorArguments, startTime: nat, polls: seq<Poll>)
    requires !args.storeCheckpoints
    ensures WatermarksAfter(args, startTime, polls) == InitialWatermarks(startTime)
  {
    if polls != [] {
      NoCheckpointsKeepWatermarks(args, startTime, polls[..|polls| - 1]);
    }
  }

  /** One scheduling step keeps the call log coupled. */
  lemma ScheduleKeepsCoupled(c: HandlerConfig, w: Watermarks, step: int, loss: real, checkTime: nat, uploadTime: nat,
                             env: Collaborators)
    requires Coupled(w.calls)
    ensures Coupled(Schedule(c, w, step, loss, checkTime, uploadTime, env).0.calls)
  {
    var due := SaveDue(c, w, step);
    var upload := UploadDue(c, w, checkTime);
    var push := PushToHub(c.repoPath, c.repoUrl, step, loss, env.pushSucceeds);
    CoupledConcat(w.calls, ScheduledCalls(due, upload, env, OptimizerStatePath(c.repoPath), push));
  }

  /** Over any polls the handler's call log stays coupled: a push only follows
      a successful write, which only follows a successful pull. */
  lemma {:induction false} WatermarksStayCoupled(args: MonitorArguments, startTime: nat, polls: seq<Poll>)
    ensures Coupled(WatermarksAfter(args, startTime, polls).calls)
  {
    if polls != [] {
      var before := polls[..|polls| - 1];
      WatermarksStayCoupled(args, startTime, before);
      var currentStep := StepsAfter(0, before);
      var poll := polls[|polls| - 1];
      if DataRaises(currentStep, poll.metricsDict).None? && args.storeCheckpoints && Advances(currentStep, poll.metricsDict) {
        var ms := poll.metricsDict.value;
        ScheduleKeepsCoupled(ConfigOf(args), WatermarksAfter(args, startTime, before), MaxStep(ms),
                             AverageLoss(TotalsOf(ms)), poll.checkTime, poll.uploadTime, poll.env);
      }
    }
  }

  /** Some call of the log writes the optimizer state, i.e. an upload started. */
  predicate UploadStarted(calls: seq<Call>)
  {
    exists i :: 0 <= i < |calls| && calls[i].SaveOptimizerState?
  }

  /** The scheduling step of the loop body: if a save is due, save; only then,
      if an upload is due, upload. An exception from any step ends it. */
  method DriveCheckpointHandler(handler: CheckpointHandler, currentStep: int, currentLoss: real,
                                checkTime: nat, uploadTime: nat, env: Collaborators) returns (status: Status)
    modifies handler
    ensures Scheduled(handler, currentStep, currentLoss, checkTime, uploadTime, env, status)
    ensures !old(handler.IsTimeToSaveState(currentStep)) ==> unchanged(handler)
    ensures UploadStarted(handler.calls[|old(handler.calls)|..]) ==>
      old(handler.IsTimeToSaveState(currentStep)) &&
      handler.calls[|old(handler.calls)|] == LoadStateFromPeers(true) &&
      handler.previousStep == currentStep
    ensures Coupled(old(handler.calls)) ==> Coupled(handler.calls)
  {
    ghost var before := handler.calls;
    ghost var w := handler.State();
    ghost var upload := handler.IsTimeToUpload(checkTime);
    status := Completed;
    if handler.IsTimeToSaveState(currentStep) {
      status := handler.SaveState(currentStep, env.loadSucceeds);
      if status == Completed {
        var isTime := handler.IsTimeToUpload(checkTime);
        assert isTime == upload;
        match isTime
        case Err(e) =>
          status := Raised(e);
        case Ok(true) =>
          status := handler.UploadCheckpoint(currentStep, currentLoss, uploadTime, env.saveSucceeds, env.pushSucceeds);
        case Ok(false) =>
      }
    }
    ghost var next := Schedule(handler.Config(), w, currentStep, currentLoss, checkTime, uploadTime, env);
    assert handler.previousStep == next.0.previousStep;
    assert handler.previousTimestamp == next.0.previousTimestamp;
    assert handler.calls == next.0.calls;
    assert status == next.1;
    if Coupled(before) {
      ScheduleKeepsCoupled(handler.Config(), w, currentStep, currentLoss, checkTime, uploadTime, env);
    }
  }

  /** One iteration of the polling loop, given what the store returned.
      Returns the new current step, the record sent to the tracking sink (if
      one is configured and the step moved) and how the iteration ended. */
  method PollOnce(args: MonitorArguments, handler: CheckpointHandler?, currentStep: int,
                  metricsDict: Option<seq<LocalMetrics>>, checkTime: nat, uploadTime: nat, env: Collaborators)
    returns (newStep: int, report: Option<Report>, status: Status)
    requires args.storeCheckpoints ==> handler != null
    modifies handler
    // no reports, or no movement of the step: nothing changes
    ensures !Advances(currentStep, metricsDict) ==>
      newStep == currentStep && report == None && (handler != null ==> unchanged(handler)) &&
      status == if metricsDict == Some([]) then Raised(EmptyMetrics) else Completed
    // the step moved: it becomes the largest step reported
    ensures Advances(currentStep, metricsDict) ==> newStep == MaxStep(metricsDict.value)
    // no micro-steps at all: the loss division fails before anything is reported
    ensures Advances(currentStep, metricsDict) && TotalsOf(metricsDict.value).sumMiniSteps == 0 ==>
      report == None && (handler != null ==> unchanged(handler)) && status == Raised(ZeroMiniSteps)
    // otherwise the aggregate is reported, then the handler is driven
    ensures Advances(currentStep, metricsDict) && TotalsOf(metricsDict.value).sumMiniSteps != 0 ==>
      report == (if args.wandbProject.Some? then Some(ReportOf(metricsDict.value)) else None) &&
      (!args.storeCheckpoints ==> status == Completed && (handler != null ==> unchanged(handler))) &&
      (args.storeCheckpoints ==>
        Scheduled(handler, newStep, AverageLoss(TotalsOf(metricsDict.value)), checkTime, uploadTime, env, status))
    ensures handler != null && handler.calls != old(handler.calls) ==>
      args.storeCheckpoints && Advances(currentStep, metricsDict) &&
      old(handler.IsTimeToSaveState(newStep))
    ensures handler != null && Coupled(old(handler.calls)) ==> Coupled(handler.calls)
    // the parts of the outcome that do not depend on the handler
    ensures newStep == StepAfter(currentStep, metricsDict)
    ensures report == ReportAfter(args, currentStep, metricsDict)
    ensures DataRaises(currentStep, metricsDict).Some? ==> status == Raised(DataRaises(currentStep, metricsDict).value)
    ensures !args.storeCheckpoints && DataRaises(currentStep, metricsDict).None? ==> status == Completed
    // the handler's new state and the status, on values
    ensures handler != null ==>
      (handler.State(), status) ==
      PollStep(args, handler.Config(), old(handler.State()), currentStep, Poll(metricsDict, checkTime, uploadTime, env))
  {
    newStep, report, status := currentStep, None, Completed;
    if metricsDict.Some? {
      var metrics := metricsDict.value;
      if metrics == [] {
        status := Raised(EmptyMetrics);
        return;
      }
      var latestStep := MaxStep(metrics);
      if latestStep != currentStep {
        newStep := latestStep;
        var t := Aggregate(metrics);
        if t.sumMiniSteps == 0 {
          status := Raised(ZeroMiniSteps);
          return;
        }
        var currentLoss := t.sumLoss / t.sumMiniSteps as real;
        if args.wandbProject.Some? {
          report := Some(Report(currentLoss, t.alivePeers, t.numSamples, t.sumPerf, latestStep));
        }
        if args.storeCheckpoints {
          status := DriveCheckpointHandler(handler, newStep, currentLoss, checkTime, uploadTime, env);
        }
      }
    }
  }

  /** The step of the last record sent to the tracking sink (0, the initial
      current step, before any). */
  function LastReportedStep(reports: seq<Report>): int
  {
    if reports == [] then 0 else reports[|reports| - 1].step
  }

  /** No two consecutive records report the same step, and none reports step 0. */
  predicate StepsMove(reports: seq<Report>)
  {
    (reports != [] ==> reports[0].step != 0) &&
    forall i :: 0 < i < |reports| ==> reports[i].step != reports[i - 1].step
  }

  /** The script: build the handler when checkpoints are stored, then poll
      `PollCount` times, stopping at the first exception. `statuses` records
      how each poll made ended. */
  method Run(args: MonitorArguments, startTime: nat, polls: seq<Poll>)
    returns (handler: CheckpointHandler?, currentStep: int, reports: seq<Report>, status: Status,
             ghost statuses: seq<Status>)
    requires |polls| == PollCount
    ensures args.storeCheckpoints <==> handler != null
    ensures handler != null ==> fresh(handler) && Coupled(handler.calls)
    // the polls are made in order until the first exception, which ends the run
    ensures 1 <= |statuses| <= PollCount
    ensures forall k :: 0 <= k < |statuses| - 1 ==> statuses[k] == Completed
    ensures status == statuses[|statuses| - 1]
    ensures |statuses| < PollCount ==> status.Raised?
    // the final step and the records are those of the polls made
    ensures currentStep == StepsAfter(0, polls[..|statuses|])
    ensures reports == ReportsAfter(args, 0, polls[..|statuses|])
    // each poll ends as its data and the handler's state make it end
    ensures StatusesFit(args, startTime, polls, statuses)
    // the handler's final state is that of the polls made
    ensures handler != null ==>
      handler.Config() == ConfigOf(args) && handler.State() == WatermarksAfter(args, startTime, polls[..|statuses|])
    ensures args.wandbProject.None? ==> reports == []
    ensures |reports| <= |polls|
    ensures StepsMove(reports)
  {
    handler := null;
    if args.storeCheckpoints {
      handler := new CheckpointHandler(args, startTime);
    }
    currentStep, reports, status, statuses := 0, [], Completed, [];
    var timeX := 0;
    while timeX < PollCount && status == Completed
      invariant 0 <= timeX <= PollCount && |statuses| == timeX
      invariant args.storeCheckpoints <==> handler != null
      invariant handler != null ==> fresh(handler) && Coupled(handler.calls)
      invariant handler != null ==>
        handler.Config() == ConfigOf(args) && handler.State() == WatermarksAfter(args, startTime, polls[..timeX])
      invariant status == if statuses == [] then Completed else statuses[|statuses| - 1]
      invariant RunSoFar(args, startTime, polls, statuses, currentStep, reports)
    {
      var poll := polls[timeX];
      var newStep, report;
      newStep, report, status :=
        PollOnce(args, handler, currentStep, poll.metricsDict, poll.checkTime, poll.uploadTime, poll.env);
      ghost var w := WatermarksAfter(args, startTime, polls[..timeX]);
      if handler == null {
        NoCheckpointsPoll(args, ConfigOf(args), w, currentStep, poll, status);
      } else {
        w := handler.State();
      }
      RunExtend(args, startTime, polls, statuses, currentStep, reports, newStep, report, w, status);
      currentStep := newStep;
      if report.Some? {
        reports := reports + [report.value];
      }
      statuses := statuses + [status];
      timeX := timeX + 1;
    }
  }

  /** With the default interval of 5 the first save is due from step 4; a
      failed pull leaves it due; after a save at step 5 the next one is due
      from step 10 and not at step 9. */
  method StepIntervalScenario()
  {
    var h := new CheckpointHandler(DefaultArguments, 0);
    assert !h.IsTimeToSaveState(3) && h.IsTimeToSaveState(4);
    var status := h.SaveState(5, false);
    assert status == Raised(LoadStateFailed) && h.IsTimeToSaveState(5);
    status := h.SaveState(5, true);
    assert !h.IsTimeToSaveState(9) && h.IsTimeToSaveState(10);
  }

  /** Two peers at steps 10 and 12 with loss sums 5.0 and 3.0 over 5 and 3
      micro-steps: the run is at step 12 with loss 1.0. */
  method TwoPeersScenario()
  {
    var args := MonitorArguments(false, Some(5), None, None, None, Some("albert"));
    var ms := [LocalMetrics(10, 5.0, 1.5, 40, 5), LocalMetrics(12, 3.0, 2.5, 24, 3)];
    assert MaxStep(ms[1..]) == 12;
    assert TotalsOf(ms[1..]) == Totals(1, 3.0, 2.5, 24, 3);
    var step, report, status := PollOnce(args, null, 0, Some(ms), 0, 0, Collaborators(true, true, true));
    assert step == 12 && status == Completed;
    assert report == Some(Report(1.0, 2, 64, 4.0, 12));
  }

  /** A poll that finds no metrics changes nothing and raises nothing. */
  method NoDataScenario(h: CheckpointHandler)
    modifies h
  {
    var step, report, status := PollOnce(DefaultArguments, h, 7, None, 0, 0, Collaborators(true, true, true));
    assert step == 7 && report == None && status == Completed;
  }

  /** A due save followed by a due upload whose push fails: the step watermark
      moves to the new step, and the upload watermark moves as well, because
      it is set before the push. */
  method FailedPushScenario()
  {
    var args := MonitorArguments(true, Some(5), Some("repo"), Some("https://hub/repo"), Some(60), None);
    var h := new CheckpointHandler(args, 100);
    var ms := [LocalMetrics(8, 4.0, 1.0, 16, 4)];
    assert MaxStep(ms) == 8 && AverageLoss(TotalsOf(ms)) == 1.0;
    assert h.IsTimeToSaveState(8) && h.IsTimeToUpload(160) == Ok(true);
    var step, report, status := PollOnce(args, h, 0, Some(ms), 160, 170, Collaborators(true, true, false));
    assert step == 8 && report == None && status == Raised(PushToHubFailed);
    assert h.previousStep == 8 && h.previousTimestamp == 170;
    assert h.calls[2] == PushToHub(Some("repo"), Some("https://hub/repo"), 8, 1.0, false);
  }

  /** A run whose polls find no metrics makes all three polls, ends normally
      at step 0 with nothing reported, and leaves any handler as built. */
  method NoDataRunScenario(args: MonitorArguments)
  {
    var idle := Poll(None, 0, 0, Collaborators(true, true, true));
    var polls := [idle, idle, idle];
    var h, step, reports, status, statuses := Run(args, 7, polls);
    NoDataChangesNothing(args, 0, 7, polls[..|statuses|]);
    NoDataChangesNothing(args, 0, 7, polls);
    assert status == Completed && |statuses| == PollCount;
    assert step == 0 && reports == [];
    assert h != null ==> h.previousStep == -1 && h.previousTimestamp == 7 && h.calls == [];
  }

  /** With the default arguments, a first poll that moves the run to step 8
      makes a save due; the pull fails, so the run ends after that poll with
      the exception, the step watermark still at -1 and the failed pull logged. */
  method FailedPullRunScenario()
  {
    var ms := [LocalMetrics(8, 4.0, 1.0, 16, 4)];
    var idle := Poll(None, 0, 0, Collaborators(true, true, true));
    var polls := [Poll(Some(ms), 0, 0, Collaborators(false, true, true)), idle, idle];
    assert MaxStep(ms) == 8 && TotalsOf(ms).sumMiniSteps == 4;
    assert polls[..1] == [polls[0]] && polls[..0] == [];
    var h, step, reports, status, statuses := Run(DefaultArguments, 0, polls);
    assert statuses[0] == Raised(LoadStateFailed);
    assert |statuses| == 1;
    assert status == Raised(LoadStateFailed) && step == 8;
    assert h.previousStep == -1 && h.calls == [LoadStateFromPeers(false)];
  }
}
