/**
 * What the callers see of the MasterControlUnit, whose own code is not part of
 * this model: the entries of its `execution_state` dictionary that they read.
 * Each entry may be missing from the dictionary.
 */
module Mcu {
  import opened Wrappers

  datatype ExecutionState = ExecutionState(
    dataExtractionCompleted: Option<bool>,
    edaCompleted: Option<bool>,
    decisionCompleted: Option<bool>,
    executionCount: Option<int>)
}
