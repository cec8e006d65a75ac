/**
 * The dashboard's globals as an object whose fields the operations update in
 * place, as `initialize_system`, `execute_system` and `_execute_system_thread`
 * update the `system_state` dictionary entry by entry. Each method is proved
 * against the matching function of `AppState`.
 */
module App {
  import opened Wrappers
  import opened AppState

  class Dashboard {
    var initialized: bool
    var running: bool
    var lastExecutionTime: Option<int>
    var executionCount: nat
    var dataExtractionCompleted: bool
    var edaCompleted: bool
    var decisionCompleted: bool
    var error: Option<string>
    /** `mcu_instance is not None` */
    var mcuLoaded: bool

    /** The abstract value of both globals. */
    function Globals(): AppState.Globals
      reads this
    {
      AppState.Globals(
        SystemState(initialized, running, lastExecutionTime, executionCount,
                    dataExtractionCompleted, edaCompleted, decisionCompleted, error),
        mcuLoaded)
    }

    /** The module-level initial values of `system_state` and `mcu_instance`. */
    constructor ()
      ensures Globals() == InitialGlobals
      ensures Consistent(Globals())
    {
      initialized, running, lastExecutionTime, executionCount := false, false, None, 0;
      dataExtractionCompleted, edaCompleted, decisionCompleted := false, false, false;
      error, mcuLoaded := None, false;
    }

    /** `initialize_system()` */
    method InitializeSystem(outcome: InitOutcome) returns (ok: bool)
      modifies this
      ensures (ok, Globals()) == Initialize(old(Globals()), outcome)
    {
      if outcome.ModuleMissing? {
        error := Some(LoadFailedMessage);
        return false;
      }
      if outcome.ConstructionRaised? {
        error := Some(outcome.message);
        return false;
      }
      mcuLoaded := true;
      if outcome.AgentsNotReady? {
        error := Some(AgentsFailedMessage);
        return false;
      }
      if outcome.AgentsRaised? {
        error := Some(outcome.message);
        return false;
      }
      initialized := true;
      error := None;
      ok := true;
    }

    /** `execute_system()`: True when an execution thread was started. */
    method ExecuteSystem(outcome: InitOutcome) returns (started: bool)
      modifies this
      ensures (started, Globals()) == ExecuteGuard(old(Globals()), outcome)
    {
      if !initialized {
        var ok := InitializeSystem(outcome);
        if !ok {
          return false;
        }
      }
      if running {
        return false;
      }
      started := true;
    }

    /** The first statements of `_execute_system_thread`. */
    method EnterExecution()
      modifies this
      ensures Globals() == Enter(old(Globals()))
    {
      running := true;
      error := None;
    }

    /** The rest of `_execute_system_thread`: `execute()`, recording its outcome, and the `finally` clause. */
    method FinishExecution(outcome: ExecOutcome, now: int)
      modifies this
      ensures Globals() == Finish(old(Globals()), outcome, now)
    {
      if !mcuLoaded {
        error := Some(NoInstanceMessage);
      } else {
        match outcome
        case ExecuteRaised(m) =>
          error := Some(m);
        case ExecuteReturned(err, es) =>
          if err.Some? {
            error := err;
          } else {
            lastExecutionTime := Some(now);
            executionCount := executionCount + 1;
            if es.dataExtractionCompleted.None? {
              error := Some(KeyErrorMessage("data_extraction_completed"));
            } else {
              dataExtractionCompleted := es.dataExtractionCompleted.value;
              if es.edaCompleted.None? {
                error := Some(KeyErrorMessage("eda_completed"));
              } else {
                edaCompleted := es.edaCompleted.value;
                if es.decisionCompleted.None? {
                  error := Some(KeyErrorMessage("decision_completed"));
                } else {
                  decisionCompleted := es.decisionCompleted.value;
                }
              }
            }
          }
      }
      running := false;
    }

    /** `_execute_system_thread()`, run to completion. */
    method ExecuteSystemThread(outcome: ExecOutcome, now: int)
      modifies this
      ensures Globals() == RunExecution(old(Globals()), outcome, now)
    {
      EnterExecution();
      FinishExecution(outcome, now);
    }
  }

  /**
   * Two calls of `execute_system()` before the first thread has begun both
   * start a thread: the `running` guard does not make executions mutually exclusive.
   */
  method OverlappingStarts() returns (first: bool, second: bool)
    ensures first && second
  {
    var d := new Dashboard();
    first := d.ExecuteSystem(AgentsReady);
    second := d.ExecuteSystem(AgentsReady);
  }

  /** Once a thread has entered, a further `execute_system()` returns False and changes nothing. */
  method StartRefusedWhileRunning(outcome: InitOutcome) returns (first: bool, second: bool, count: nat)
    ensures first && !second && count == 0
  {
    var d := new Dashboard();
    first := d.ExecuteSystem(AgentsReady);
    d.EnterExecution();
    second := d.ExecuteSystem(outcome);
    count := d.executionCount;
  }
}
