/** Optional values, and the exceptions the monitor script can raise. */
module Wrappers {

  /** Python's `Optional[...]`: `None` or a value. */
  datatype Option<+T> = None | Some(value: T)

  /** The exceptions that can escape one iteration of the monitor loop.
      The script has no `try`/`except`, so any of them ends the process. */
  datatype Exception =
    | EmptyMetrics          // `max(...)` over a metrics dictionary with no peers (ValueError)
    | ZeroMiniSteps         // `sum_loss / sum_mini_steps` with a zero denominator (ZeroDivisionError)
    | UploadIntervalUnset   // `time.time() - previous_timestamp >= None` (TypeError)
    | LoadStateFailed       // `load_state_from_peers` raised
    | SaveOptimizerFailed   // `torch.save` of the optimizer state raised
    | PushToHubFailed       // `push_to_hub` raised

  /** How a step of the monitor ended: normally, or with an exception. */
  datatype Status = Completed | Raised(exception: Exception)

  /** A value, or the exception that was raised while computing it. */
  datatype Result<+T> = Ok(value: T) | Err(exception: Exception)
}
