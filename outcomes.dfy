/**
 * Failure outcomes shared by the model wrappers. Where the Python code prints and
 * exits, or lets the framework raise, the model returns one of these errors.
 */
module Outcomes {

  datatype Option<T> = None | Some(value: T)

  datatype Error =
    | InvalidVersion          // the version is not one of the seven literals (the source exits)
    | CheckpointUnreadable    // the checkpoint file cannot be read or deserialised
    | MissingStateDict        // the checkpoint holds no 'state_dict' entry (KeyError)
    | MissingConv1Weight      // the merged table holds no 'conv1.weight' entry (KeyError)
    | ConcatFailed            // torch.cat refused its operands
    | StateDictMismatch       // strict loading met an unexpected key or a shape mismatch
    | LinearShapeMismatch     // a Linear layer met an input whose last axis is not its input width

  datatype Result<T> = Ok(value: T) | Err(error: Error)
}
