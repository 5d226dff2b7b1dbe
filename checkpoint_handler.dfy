/** The command-line configuration the monitor reads (`TrainingMonitorArguments`),
    restricted to the fields the scheduling logic uses. */
module Arguments {
  import opened Wrappers

  /** `upload_interval` is in seconds of the abstract clock. */
  datatype MonitorArguments = MonitorArguments(
    storeCheckpoints: bool,
    saveCheckpointStepInterval: Option<int>,
    repoPath: Option<string>,
    repoUrl: Option<string>,
    uploadInterval: Option<int>,
    wandbProject: Option<string>)

  /** The defaults of the dataclass fields. */
  const DefaultArguments := MonitorArguments(true, Some(5), None, None, None, None)
}

/** The checkpoint handler: two watermarks, two go/no-go predicates over them
    and two actions that move them. The model, the optimizer and the state
    averager are left out; their three calls are recorded in `calls`. */
module Checkpoint {
  import opened Wrappers
  import opened Arguments

  /** A call into a collaborator, with the outcome the collaborator reported. */
  datatype Call =
    | LoadStateFromPeers(succeeded: bool)
    | SaveOptimizerState(path: string, succeeded: bool)
    | PushToHub(repoName: Option<string>, repoUrl: Option<string>, step: int, loss: real, succeeded: bool)

  /** Where the optimizer state is written: `f"{repo_path}/optimizer_state.pt"`
      (an unset `repo_path` formats as `None`). */
  function OptimizerStatePath(repoPath: Option<string>): string
  {
    (match repoPath case Some(p) => p case None => "None") + "/optimizer_state.pt"
  }

  /** Publishing can only follow a successful local write, which can only follow
      a successful pull of the state from the peers. */
  predicate Coupled(calls: seq<Call>)
  {
    forall i {:trigger calls[i]} :: 0 <= i < |calls| ==>
      (calls[i].SaveOptimizerState? ==> i > 0 && calls[i - 1] == LoadStateFromPeers(true)) &&
      (calls[i].PushToHub? ==> i > 0 && calls[i - 1].SaveOptimizerState? && calls[i - 1].succeeded)
  }

  /** The configuration a handler copies from the arguments. */
  datatype HandlerConfig = HandlerConfig(
    saveCheckpointStepInterval: Option<int>,
    repoPath: Option<string>,
    repoUrl: Option<string>,
    uploadInterval: Option<int>)

  /** The part of the arguments a handler is built from. */
  function ConfigOf(args: MonitorArguments): HandlerConfig
  {
    HandlerConfig(args.saveCheckpointStepInterval, args.repoPath, args.repoUrl, args.uploadInterval)
  }

  /** What a handler changes: its two watermarks and the log of calls. */
  datatype Watermarks = Watermarks(previousStep: int, previousTimestamp: nat, calls: seq<Call>)

  /** A fresh handler's state, built at clock reading `now`. */
  function InitialWatermarks(now: nat): Watermarks
  {
    Watermarks(-1, now, [])
  }

  /** `is_time_to_save_state` for configuration `c` in state `w`. */
  function SaveDue(c: HandlerConfig, w: Watermarks, curStep: int): bool
  {
    if c.saveCheckpointStepInterval.None? then false
    else if curStep - w.previousStep >= c.saveCheckpointStepInterval.value then true
    else false
  }

  /** `is_time_to_upload` for configuration `c` in state `w` at clock reading `now`. */
  function UploadDue(c: HandlerConfig, w: Watermarks, now: nat): Result<bool>
  {
    if c.repoPath.None? then Ok(false)
    else if c.uploadInterval.None? then Err(UploadIntervalUnset)
    else if now - w.previousTimestamp >= c.uploadInterval.value then Ok(true)
    else Ok(false)
  }

  class CheckpointHandler {
    const saveCheckpointStepInterval: Option<int>
    const repoPath: Option<string>
    const repoUrl: Option<string>
    const uploadInterval: Option<int>
    /** The step of the last successful pull of the state from the peers. */
    var previousStep: int
    /** The clock reading when the optimizer state was last written for upload. */
    var previousTimestamp: nat
    /** The collaborator calls made so far, in order. */
    var calls: seq<Call>

    /** The handler starts with no save made (`previous_step` is -1) and with
        the upload clock started at construction time `now`. */
    constructor (args: MonitorArguments, now: nat)
      ensures saveCheckpointStepInterval == args.saveCheckpointStepInterval
      ensures repoPath == args.repoPath && repoUrl == args.repoUrl
      ensures uploadInterval == args.uploadInterval
      ensures previousStep == -1 && previousTimestamp == now && calls == []
      ensures Config() == ConfigOf(args) && State() == InitialWatermarks(now)
    {
      saveCheckpointStepInterval := args.saveCheckpointStepInterval;
      repoPath := args.repoPath;
      repoUrl := args.repoUrl;
      uploadInterval := args.uploadInterval;
      previousStep := -1;
      previousTimestamp := now;
      calls := [];
    }

    /** The configuration this handler was built with. */
    function Config(): HandlerConfig
    {
      HandlerConfig(saveCheckpointStepInterval, repoPath, repoUrl, uploadInterval)
    }

    /** The watermarks and the log, as a value. */
    function State(): Watermarks
      reads this
    {
      Watermarks(previousStep, previousTimestamp, calls)
    }

    /** The first step at which a save is due, if saving is enabled at all. */
    function NextSaveStep(): Option<int>
      reads this
    {
      match saveCheckpointStepInterval
      case None => None
      case Some(interval) => Some(previousStep + interval)
    }

    /** `is_time_to_save_state`: a save is due from `NextSaveStep()` on. */
    predicate IsTimeToSaveState(curStep: int)
      reads this
      ensures IsTimeToSaveState(curStep) <==> NextSaveStep().Some? && curStep >= NextSaveStep().value
    {
      SaveDue(Config(), State(), curStep)
    }

    /** `save_state`: pull the merged state from the peers; move the step
        watermark only when the pull succeeds. */
    method SaveState(curStep: int, loadSucceeds: bool) returns (status: Status)
      modifies this`previousStep, this`calls
      ensures calls == old(calls) + [LoadStateFromPeers(loadSucceeds)]
      ensures previousStep == if loadSucceeds then curStep else old(previousStep)
      ensures previousTimestamp == old(previousTimestamp)
      ensures status == if loadSucceeds then Completed else Raised(LoadStateFailed)
      ensures loadSucceeds ==> forall c :: IsTimeToSaveState(c) <==>
        saveCheckpointStepInterval.Some? && c >= curStep + saveCheckpointStepInterval.value
    {
      calls := calls + [LoadStateFromPeers(loadSucceeds)];
      if !loadSucceeds {
        return Raised(LoadStateFailed);
      }
      previousStep := curStep;
      status := Completed;
    }

    /** `is_time_to_upload` at clock reading `now`: never when no repository is
        configured; a TypeError when a repository is configured without an
        upload interval; otherwise due once the interval has elapsed. */
    function IsTimeToUpload(now: nat): (r: Result<bool>)
      reads this
      ensures repoPath.None? ==> r == Ok(false)
      ensures repoPath.Some? && uploadInterval.None? ==> r == Err(UploadIntervalUnset)
      ensures repoPath.Some? && uploadInterval.Some? ==>
        r == Ok(now >= previousTimestamp + uploadInterval.value)
    {
      UploadDue(Config(), State(), now)
    }

    /** `upload_checkpoint` at clock reading `now`: write the optimizer state,
        then move the upload watermark, then push to the hub. A failed write
        leaves the watermark alone; a failed push does not undo it. The step
        watermark is untouched. `currentStep` is the monitor's current step,
        used in the commit message. */
    method UploadCheckpoint(currentStep: int, currentLoss: real, now: nat,
                            saveSucceeds: bool, pushSucceeds: bool) returns (status: Status)
      modifies this`previousTimestamp, this`calls
      ensures previousStep == old(previousStep)
      ensures !saveSucceeds ==>
        calls == old(calls) + [SaveOptimizerState(OptimizerStatePath(repoPath), false)] &&
        previousTimestamp == old(previousTimestamp) &&
        status == Raised(SaveOptimizerFailed)
      ensures saveSucceeds ==>
        calls == old(calls) + [SaveOptimizerState(OptimizerStatePath(repoPath), true),
                               PushToHub(repoPath, repoUrl, currentStep, currentLoss, pushSucceeds)] &&
        previousTimestamp == now &&
        status == if pushSucceeds then Completed else Raised(PushToHubFailed)
      ensures saveSucceeds && repoPath.Some? && uploadInterval.Some? ==>
        forall t: nat :: IsTimeToUpload(t) == Ok(t >= now + uploadInterval.value)
    {
      calls := calls + [SaveOptimizerState(OptimizerStatePath(repoPath), saveSucceeds)];
      if !saveSucceeds {
        return Raised(SaveOptimizerFailed);
      }
      previousTimestamp := now;
      calls := calls + [PushToHub(repoPath, repoUrl, currentStep, currentLoss, pushSucceeds)];
      status := if pushSucceeds then Completed else Raised(PushToHubFailed);
    }
  }

  /** Once a save is due it stays due for every later step, until `SaveState`
      moves the watermark. */
  lemma SaveDueIsMonotone(h: CheckpointHandler, curStep: int, laterStep: int)
    requires h.IsTimeToSaveState(curStep) && curStep <= laterStep
    ensures h.IsTimeToSaveState(laterStep)
  {
  }

  /** `NextSaveStep()` is the first due step: a save is due there and not one
      step earlier. It exists exactly when a step interval is configured. */
  lemma NextSaveStepIsFirstDue(h: CheckpointHandler)
    ensures h.NextSaveStep().Some? <==> h.saveCheckpointStepInterval.Some?
    ensures h.NextSaveStep().Some? ==>
      h.IsTimeToSaveState(h.NextSaveStep().value) && !h.IsTimeToSaveState(h.NextSaveStep().value - 1)
  {
  }

  /** Without a step interval no save is ever due. */
  lemma NoIntervalNeverSaves(h: CheckpointHandler, curStep: int)
    requires h.saveCheckpointStepInterval.None?
    ensures !h.IsTimeToSaveState(curStep)
  {
  }

  /** A fresh handler with the default interval of 5 has its first save due at
      step 4, because the watermark starts at -1. */
  lemma FirstSaveIsAtStepFour(h: CheckpointHandler, curStep: int)
    requires h.previousStep == -1 && h.saveCheckpointStepInterval == Some(5)
    ensures h.IsTimeToSaveState(curStep) <==> curStep >= 4
  {
  }

  /** Without a repository no upload is ever due, however much time has passed. */
  lemma NoRepositoryNeverUploads(h: CheckpointHandler, now: nat)
    requires h.repoPath.None?
    ensures h.IsTimeToUpload(now) == Ok(false)
  {
  }

  /** Once an upload is due it stays due at every later clock reading. */
  lemma UploadDueIsMonotone(h: CheckpointHandler, now: nat, later: nat)
    requires h.IsTimeToUpload(now) == Ok(true) && now <= later
    ensures h.IsTimeToUpload(later) == Ok(true)
  {
  }

  /** Appending the calls of one more iteration, which start with a pull from
      the peers, keeps the log coupled. */
  lemma CoupledConcat(a: seq<Call>, b: seq<Call>)
    requires Coupled(a) && Coupled(b)
    requires b != [] ==> b[0].LoadStateFromPeers?
    ensures Coupled(a + b)
  {
  }
}
