# Training-run monitor: scheduling and aggregation core

A Dafny model of the decision logic of `Albert/run_training_monitor.py`, the
monitor process of a decentralized (hivemind) ALBERT training run. The monitor
polls the shared key-value store for the peers' progress reports. When the
run-level step moves, it aggregates the reports into run-level metrics and
sends them to the tracking sink. It then drives a `CheckpointHandler` that
decides when to pull the merged training state from the peers ("save") and
when to publish it to the model hub ("upload").

Modules:

- `Wrappers` (`wrappers.dfy`): `Option`, `Result`, and the exceptions an
  iteration can raise (`Exception`, `Status`).
- `Metrics` (`metrics.dfy`): the per-peer report `LocalMetrics` and the
  run-level step `MaxStep`. The aggregation loop `Aggregate` is proved against
  the reference sum `TotalsOf`. Lemmas cover the weighting of the loss by
  micro-steps and show the result does not depend on the order of the peers.
- `Arguments` and `Checkpoint` (`checkpoint_handler.dfy`): the configuration
  fields the core reads, and the class `CheckpointHandler`. Its configuration
  (`HandlerConfig`) and its state (`Watermarks`) are also available as values,
  and its two predicates are defined on them (`SaveDue`, `UploadDue`). The class holds
  the two watermarks `previousStep` (starts at -1) and `previousTimestamp`
  (the clock at construction), the predicates `IsTimeToSaveState` and
  `IsTimeToUpload`, and the actions `SaveState` and `UploadCheckpoint`.
  The three collaborator calls (`load_state_from_peers`, `torch.save`,
  `push_to_hub`) are appended to the log `calls`, together with the outcome
  the collaborator reported. `Coupled` states that a push only follows a
  successful write, and a write only follows a successful pull.
- `Monitor` (`monitor.dfy`): one iteration of the polling loop (`PollOnce`),
  its scheduling step (`DriveCheckpointHandler`), and the bounded script
  (`Run`, three polls). One poll is also a function on values (`PollStep`,
  built on the scheduling step `Schedule`). `Run` is stated through folds
  over the polls: the current step (`StepsAfter`), the reports
  (`ReportsAfter`) and the handler's state (`WatermarksAfter`). A ghost record
  of how each poll ended is tied to `StatusAt`. Six client methods
  (`StepIntervalScenario`, `TwoPeersScenario`, `NoDataScenario`,
  `FailedPushScenario`, `NoDataRunScenario`, `FailedPullRunScenario`) verify
  concrete scenarios against the contracts alone.

Modelling choices:

- Time is an abstract `nat` clock passed in as a parameter. The interval
  check and the upload read `time.time()` separately, so `PollOnce` takes two
  readings. The readings of a `Poll`, and the construction time given to
  `Run`, are not required to be ordered: no contract depends on the clock
  being monotone.
- A collaborator's success or failure is an input. A failure is an exception.
  The script has no `try`/`except`, so `Run` stops at the first one.
- Python's own exceptions are modelled as error results:
  - `max()` over an empty metrics dictionary (`EmptyMetrics`);
  - a zero `sum_mini_steps` (`ZeroMiniSteps`); `current_step` has already
    moved when this is raised, and the model keeps that order;
  - `repo_path` set while `upload_interval` is `None` (`UploadIntervalUnset`,
    a TypeError in the comparison).
- `upload_checkpoint` reads the script's global `current_step` for its commit
  message. The model passes it as an explicit parameter.
- The iteration aggregates when the largest reported step differs (`!=`)
  from the current step. A decrease of that step therefore counts as well.
  The current step starts at 0.

Behaviour of the script the model keeps:

- A failed iteration ends the script. The loop does not continue.
- An empty metrics dictionary raises. It is not treated as "no data yet".
- A repository path without an upload interval is not checked at startup.
  The TypeError is raised by the first `is_time_to_upload()` call, which
  comes right after the first successful `save_state`
  (`Albert/run_training_monitor.py`, lines 316-317 and 129).
- The upload watermark moves before the push, so it also moves when the push
  fails.

## Model

| member | source | states |
|---|---|---|
| `Metrics.MaxStep` | Albert/run_training_monitor.py:276 | `latest_step` is a step some peer reports, and no peer reports a larger one |
| `Metrics.Aggregate` | Albert/run_training_monitor.py:285-296 | the loop's five accumulators equal the reference totals of the report list, and `alive_peers` is the number of reports |
| `Metrics.TotalsOfAppend` | Albert/run_training_monitor.py:291-296 | adding one more report to the accumulators gives the totals of the longer list |
| `Metrics.AlivePeersIsLength` | Albert/run_training_monitor.py:293 | the peer count of the totals is the length of the list |
| `Metrics.UniformRateIsPreserved` | Albert/run_training_monitor.py:297 | if every peer's loss sum is `rate` per micro-step, the run-level loss is `rate`: the loss is weighted by micro-steps, not averaged over peers |
| `Metrics.PositiveMiniSteps` | Albert/run_training_monitor.py:296-297 | when every peer did at least one micro-step, `sum_mini_steps` is at least the peer count, so the loss division cannot fail |
| `Metrics.WeightedLossExample` | Albert/run_training_monitor.py:297 | loss sums 1.0 and 2.0 over 2 and 3 micro-steps aggregate to 0.6 |
| `Metrics.TotalsOfRemove` | Albert/run_training_monitor.py:291-296 | taking one report out and adding it last leaves the totals unchanged |
| `Metrics.TotalsOfPermutation` | Albert/run_training_monitor.py:275-296 | with exact sums, the totals do not depend on the order in which the dictionary yields the peers |
| `Metrics.MaxStepPermutation` | Albert/run_training_monitor.py:275-276 | the run-level step does not depend on the order of the peers |
| `Checkpoint.CheckpointHandler.constructor` | Albert/run_training_monitor.py:64-111 | configuration copied from the arguments; `previous_step` is -1 and `previous_timestamp` is the construction time |
| `Checkpoint.NextSaveStepIsFirstDue` | Albert/run_training_monitor.py:113-119 | a first due step exists exactly when a step interval is configured; a save is due at it and not one step earlier |
| `Checkpoint.CheckpointHandler.IsTimeToSaveState` | Albert/run_training_monitor.py:113-119 | a save is due exactly from `NextSaveStep()` on; never without a step interval |
| `Checkpoint.CheckpointHandler.SaveState` | Albert/run_training_monitor.py:121-124 | one pull from the peers is logged; on success the step watermark becomes `cur` and a save is due again exactly from `cur + interval`; on failure it raises and the watermark is kept; the upload watermark never changes |
| `Checkpoint.CheckpointHandler.IsTimeToUpload` | Albert/run_training_monitor.py:126-132 | false without a repository; a TypeError when a repository has no upload interval; otherwise due exactly once the interval has elapsed since the upload watermark |
| `Checkpoint.CheckpointHandler.UploadCheckpoint` | Albert/run_training_monitor.py:134-143 | write, then move the upload watermark, then push: a failed write raises and keeps the watermark; after a write the watermark is `now` whether or not the push fails, and the next upload is due exactly one interval later; the step watermark is untouched |
| `Checkpoint.SaveDueIsMonotone` | Albert/run_training_monitor.py:116 | a due save stays due for every later step while the watermark is unchanged |
| `Checkpoint.NoIntervalNeverSaves` | Albert/run_training_monitor.py:114-115 | without a step interval no save is due at any step |
| `Checkpoint.FirstSaveIsAtStepFour` | Albert/run_training_monitor.py:75-116 | with the watermark at -1 and interval 5, a save is due exactly at steps of 4 and above |
| `Checkpoint.NoRepositoryNeverUploads` | Albert/run_training_monitor.py:127-128 | without a repository no upload is due, at any clock reading |
| `Checkpoint.UploadDueIsMonotone` | Albert/run_training_monitor.py:129 | a due upload stays due at every later clock reading |
| `Checkpoint.CoupledConcat` | Albert/run_training_monitor.py:315-318 | the call log stays coupled (push after a successful write after a successful pull) when one iteration's calls are appended |
| `Monitor.DriveCheckpointHandler` | Albert/run_training_monitor.py:315-318 | nothing happens unless a save is due; an upload is considered only after a successful save in the same step; the new watermarks, the call log and the raised exception are exactly those of that order; the log stays coupled |
| `Monitor.PollOnce` | Albert/run_training_monitor.py:273-318 | no data, or no movement of the largest step, changes nothing; an empty dictionary raises; otherwise the current step becomes the largest step; a zero micro-step sum raises before anything is reported; otherwise the aggregate is reported when a sink is configured, and the handler is driven only when checkpoints are stored; the handler is touched only if a save was due; the handler's new state and the status are those of `PollStep` on values |
| `Monitor.Run` | Albert/run_training_monitor.py:261-321 | a handler exists exactly when checkpoints are stored; the polls are made in order, all three unless one raises, and the first exception ends the run; each poll ends exactly as its data and the handler's state after the earlier polls make it end (`StatusAt`), handler exceptions included; the final step, the reports and the handler's final watermarks and call log are the folds of the polls made; over the whole run the call log stays coupled; no two consecutive reports carry the same step; nothing is reported without a sink |
| `Monitor.NoDataChangesNothing` | Albert/run_training_monitor.py:273 | polls that find no metrics leave the current step where it was, report nothing, leave the handler as built and all end normally |
| `Monitor.NoCheckpointsKeepWatermarks` | Albert/run_training_monitor.py:262-263 | without checkpoints the handler's state never leaves its initial value, whatever the polls |
| `Monitor.ScheduleKeepsCoupled` | Albert/run_training_monitor.py:315-318 | one scheduling step on values keeps the call log coupled |
| `Monitor.WatermarksStayCoupled` | Albert/run_training_monitor.py:313-318 | over any sequence of polls the handler's call log stays coupled: a push only after a successful write, a write only after a successful pull |
| `Monitor.ReportsMove` | Albert/run_training_monitor.py:278-309 | a poll's record, if any, carries the new step, which differs from the last one reported, so the reports keep moving; a poll that ends normally without a record while a sink is configured leaves the step where it was |

## Left out

- The DHT, its validators and the reading of the metrics key: the model
  receives the already-read dictionary as a list of parsed reports. Schema
  validation in `utils.LocalMetrics.parse_obj` is not part of this model.
- The public-IP lookup, the ngrok tunnel, the `subprocess` launch and the
  port scraping: network and process plumbing with no effect on the
  scheduling state.
- The ALBERT model, the Lamb optimizer, the learning-rate schedule and the
  state averager. Their calls are opaque: each is logged with the outcome it
  reported.
- `wandb.init` and `wandb.log`: the sink is modelled as the record returned
  by `PollOnce`. The `logger` and `print` output is left out.
- `time.sleep` and the real-valued clock: time is an abstract `nat`, and
  upload intervals are whole clock units.
- Floating-point arithmetic: the summed losses and throughputs
  (`sum_loss += item.loss`, `sum_perf += item.samples_per_second`) and the
  loss division are exact `real` arithmetic. Python's float addition rounds
  and is not associative, so the order-independence of the totals holds for
  exact sums only.
- Argument parsing (`HfArgumentParser`): the arguments are a datatype value.
- Checkpoint.CheckpointHandler.UploadCheckpoint: the commit message
  `Step #..., loss ...` is recorded as its step and loss values. The decimal
  formatting to three places is not modelled.
