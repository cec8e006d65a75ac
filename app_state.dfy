/**
 * The dashboard's execution-state machine (app.py), as functions on the two
 * module-level globals it mutates: the `system_state` dictionary and
 * `mcu_instance`. The MasterControlUnit is an oracle: what loading,
 * constructing, `initialize_agents()` and `execute()` did is an input.
 */
module AppState {
  import opened Wrappers
  import Mcu

  /** The `system_state` dictionary; `lastExecutionTime` is an abstract clock reading. */
  datatype SystemState = SystemState(
    initialized: bool,
    running: bool,
    lastExecutionTime: Option<int>,
    executionCount: nat,
    dataExtractionCompleted: bool,
    edaCompleted: bool,
    decisionCompleted: bool,
    error: Option<string>)

  /** Both globals: `system_state`, and whether `mcu_instance` holds an instance. */
  datatype Globals = Globals(state: SystemState, mcuLoaded: bool)

  const InitialGlobals: Globals :=
    Globals(SystemState(false, false, None, 0, false, false, false, None), false)

  /** What happened inside `initialize_system` at the MasterControlUnit's side. */
  datatype InitOutcome =
    | ModuleMissing                          // load_module returned None
    | ConstructionRaised(message: string)    // getattr or the constructor raised
    | AgentsNotReady                         // initialize_agents() returned False
    | AgentsRaised(message: string)          // initialize_agents() raised
    | AgentsReady                            // initialize_agents() returned True
  {
    /** The constructor ran, so `mcu_instance` was reassigned. */
    predicate Constructed() {
      AgentsNotReady? || AgentsRaised? || AgentsReady?
    }
  }

  /** What `mcu_instance.execute()` did: raised, or returned a result dictionary with or without an "error" entry. */
  datatype ExecOutcome =
    | ExecuteRaised(message: string)
    | ExecuteReturned(error: Option<string>, executionState: Mcu.ExecutionState)

  const LoadFailedMessage := "Failed to load MCU module"
  const AgentsFailedMessage := "Failed to initialize agents"
  /** `str(e)` of the AttributeError raised by calling `execute` on a missing instance. */
  const NoInstanceMessage := "'NoneType' object has no attribute 'execute'"

  /** `str(e)` of the KeyError raised by looking up a missing dictionary key. */
  function KeyErrorMessage(key: string): string {
    "'" + key + "'"
  }

  /** The dashboard's invariant: once initialized, an MCU instance exists. */
  predicate Consistent(g: Globals) {
    g.state.initialized ==> g.mcuLoaded
  }

  /**
   * `initialize_system()`: returns True and marks the system initialized with
   * no error only when the agents were initialized; every failure records an
   * error and leaves `initialized` as it was.
   */
  function Initialize(g: Globals, o: InitOutcome): (r: (bool, Globals))
    ensures r.0 <==> o.AgentsReady?
    ensures r.0 ==> r.1.state.initialized && r.1.state.error == None
    ensures !r.0 ==> r.1.state.initialized == g.state.initialized && r.1.state.error.Some?
    ensures o.ModuleMissing? ==> r.1.state.error == Some(LoadFailedMessage)
    ensures o.AgentsNotReady? ==> r.1.state.error == Some(AgentsFailedMessage)
    ensures (o.ConstructionRaised? || o.AgentsRaised?) ==> r.1.state.error == Some(o.message)
    ensures r.1.state == g.state.(initialized := r.1.state.initialized, error := r.1.state.error)
    ensures r.1.mcuLoaded <==> g.mcuLoaded || o.Constructed()
    ensures Consistent(g) ==> Consistent(r.1)
  {
    var loaded := g.mcuLoaded || o.Constructed();
    match o
    case ModuleMissing =>
      (false, Globals(g.state.(error := Some(LoadFailedMessage)), loaded))
    case ConstructionRaised(m) =>
      (false, Globals(g.state.(error := Some(m)), loaded))
    case AgentsNotReady =>
      (false, Globals(g.state.(error := Some(AgentsFailedMessage)), loaded))
    case AgentsRaised(m) =>
      (false, Globals(g.state.(error := Some(m)), loaded))
    case AgentsReady =>
      (true, Globals(g.state.(initialized := true, error := None), loaded))
  }

  /**
   * The guard of `execute_system()`: initializes first when needed (giving up
   * if that fails), refuses while `running`, and otherwise reports that an
   * execution thread was started. Starting a thread changes no state.
   */
  function ExecuteGuard(g: Globals, o: InitOutcome): (r: (bool, Globals))
    ensures r.0 <==> !g.state.running && (g.state.initialized || o.AgentsReady?)
    ensures g.state.running ==> !r.0
    ensures g.state.initialized ==> r.1 == g
    ensures !g.state.initialized ==> r.1 == Initialize(g, o).1
    ensures r.0 ==> r.1.state.initialized
    ensures Consistent(g) ==> Consistent(r.1)
    ensures Consistent(g) && r.0 ==> r.1.mcuLoaded
  {
    if !g.state.initialized && !Initialize(g, o).0 then (false, Initialize(g, o).1)
    else
      var h := if g.state.initialized then g else Initialize(g, o).1;
      if h.state.running then (false, h) else (true, h)
  }

  /** The first step of the execution thread: mark the system running and clear the error. */
  function Enter(g: Globals): (r: Globals)
    ensures r.state.running && r.state.error == None
    ensures r == g.(state := g.state.(running := true, error := None))
  {
    g.(state := g.state.(running := true, error := None))
  }

  /** `execute()` ran and returned a result without an "error" entry: the point where the counters move. */
  predicate ExecutionReturned(g: Globals, o: ExecOutcome) {
    g.mcuLoaded && o.ExecuteReturned? && o.error.None?
  }

  /** ... and every completion flag the thread copies was present in `execution_state`. */
  predicate ExecutionSucceeded(g: Globals, o: ExecOutcome) {
    ExecutionReturned(g, o)
    && o.executionState.dataExtractionCompleted.Some?
    && o.executionState.edaCompleted.Some?
    && o.executionState.decisionCompleted.Some?
  }

  /**
   * The rest of the execution thread, after `Enter`: run `execute()` and
   * record its outcome; the `finally` clause clears `running` on every path.
   * The count and time move exactly when `execute()` returned without an
   * error; then the flags are copied one by one from the MCU's
   * `execution_state`, and a missing entry stops the copy with a KeyError.
   */
  function Finish(g: Globals, o: ExecOutcome, now: int): (r: Globals)
    ensures !r.state.running
    ensures r.mcuLoaded == g.mcuLoaded && r.state.initialized == g.state.initialized
    ensures r.state.executionCount == g.state.executionCount + (if ExecutionReturned(g, o) then 1 else 0)
    ensures r.state.lastExecutionTime == (if ExecutionReturned(g, o) then Some(now) else g.state.lastExecutionTime)
    ensures !ExecutionReturned(g, o) ==>
              && r.state.dataExtractionCompleted == g.state.dataExtractionCompleted
              && r.state.edaCompleted == g.state.edaCompleted
              && r.state.decisionCompleted == g.state.decisionCompleted
              && r.state.error.Some?
    ensures !g.mcuLoaded ==> r.state.error == Some(NoInstanceMessage)
    ensures g.mcuLoaded && o.ExecuteRaised? ==> r.state.error == Some(o.message)
    ensures g.mcuLoaded && o.ExecuteReturned? && o.error.Some? ==> r.state.error == o.error
    ensures ExecutionSucceeded(g, o) ==>
              && r.state.dataExtractionCompleted == o.executionState.dataExtractionCompleted.value
              && r.state.edaCompleted == o.executionState.edaCompleted.value
              && r.state.decisionCompleted == o.executionState.decisionCompleted.value
    ensures ExecutionReturned(g, o) && !ExecutionSucceeded(g, o) ==> r.state.error.Some?
    ensures ExecutionReturned(g, o) && o.executionState.dataExtractionCompleted.None? ==>
              && r.state.dataExtractionCompleted == g.state.dataExtractionCompleted
              && r.state.edaCompleted == g.state.edaCompleted
              && r.state.decisionCompleted == g.state.decisionCompleted
              && r.state.error == Some(KeyErrorMessage("data_extraction_completed"))
    ensures ExecutionReturned(g, o) && o.executionState.dataExtractionCompleted.Some?
            && o.executionState.edaCompleted.None? ==>
              && r.state.dataExtractionCompleted == o.executionState.dataExtractionCompleted.value
              && r.state.edaCompleted == g.state.edaCompleted
              && r.state.decisionCompleted == g.state.decisionCompleted
              && r.state.error == Some(KeyErrorMessage("eda_completed"))
    ensures ExecutionReturned(g, o) && o.executionState.dataExtractionCompleted.Some?
            && o.executionState.edaCompleted.Some? && o.executionState.decisionCompleted.None? ==>
              && r.state.dataExtractionCompleted == o.executionState.dataExtractionCompleted.value
              && r.state.edaCompleted == o.executionState.edaCompleted.value
              && r.state.decisionCompleted == g.state.decisionCompleted
              && r.state.error == Some(KeyErrorMessage("decision_completed"))
    ensures r.state.error == None <==> g.state.error == None && ExecutionSucceeded(g, o)
    ensures Consistent(g) ==> Consistent(r)
  {
    var s := g.state;
    var s' :=
      if !g.mcuLoaded then s.(error := Some(NoInstanceMessage))
      else match o
        case ExecuteRaised(m) => s.(error := Some(m))
        case ExecuteReturned(err, es) =>
          if err.Some? then s.(error := err)
          else
            var counted := s.(lastExecutionTime := Some(now), executionCount := s.executionCount + 1);
            if es.dataExtractionCompleted.None? then
              counted.(error := Some(KeyErrorMessage("data_extraction_completed")))
            else
              var c1 := counted.(dataExtractionCompleted := es.dataExtractionCompleted.value);
              if es.edaCompleted.None? then
                c1.(error := Some(KeyErrorMessage("eda_completed")))
              else
                var c2 := c1.(edaCompleted := es.edaCompleted.value);
                if es.decisionCompleted.None? then
                  c2.(error := Some(KeyErrorMessage("decision_completed")))
                else
                  c2.(decisionCompleted := es.decisionCompleted.value);
    Globals(s'.(running := false), g.mcuLoaded)
  }

  /** The whole thread body `_execute_system_thread`. */
  function RunExecution(g: Globals, o: ExecOutcome, now: int): (r: Globals)
    ensures !r.state.running
    ensures r.state.executionCount == g.state.executionCount + (if ExecutionReturned(g, o) then 1 else 0)
    ensures r.state.error == None <==> ExecutionSucceeded(g, o)
    ensures ExecutionSucceeded(g, o) ==>
              && r.state.dataExtractionCompleted == o.executionState.dataExtractionCompleted.value
              && r.state.edaCompleted == o.executionState.edaCompleted.value
              && r.state.decisionCompleted == o.executionState.decisionCompleted.value
              && r.state.lastExecutionTime == Some(now)
    ensures Consistent(g) ==> Consistent(r)
  {
    Finish(Enter(g), o, now)
  }

  /**
   * A KeyError while copying the flags is raised after the count and the
   * time have moved: the run is counted although it ends with an error,
   * so "an exception increments nothing" does not hold for it.
   */
  lemma KeyErrorAfterCount(g: Globals, o: ExecOutcome, now: int)
    requires ExecutionReturned(g, o) && !ExecutionSucceeded(g, o)
    ensures Finish(g, o, now).state.executionCount == g.state.executionCount + 1
    ensures Finish(g, o, now).state.lastExecutionTime == Some(now)
    ensures Finish(g, o, now).state.error.Some?
  {
  }

  /** The first flag `execution_state` lacks, in the order the thread copies them. */
  function FirstMissingFlag(es: Mcu.ExecutionState): string {
    if es.dataExtractionCompleted.None? then "data_extraction_completed"
    else if es.edaCompleted.None? then "eda_completed"
    else "decision_completed"
  }

  /**
   * `Finish` with the three flags read before the count and the time move:
   * a run that ends with any error, a KeyError included, changes neither
   * the count, nor the time, nor a flag, and records the same error.
   */
  function FinishAllOrNothing(g: Globals, o: ExecOutcome, now: int): (r: Globals)
    ensures !r.state.running && r.mcuLoaded == g.mcuLoaded && r.state.initialized == g.state.initialized
    ensures r.state.executionCount == g.state.executionCount + (if ExecutionSucceeded(g, o) then 1 else 0)
    ensures !ExecutionSucceeded(g, o) ==>
              && r.state.lastExecutionTime == g.state.lastExecutionTime
              && r.state.dataExtractionCompleted == g.state.dataExtractionCompleted
              && r.state.edaCompleted == g.state.edaCompleted
              && r.state.decisionCompleted == g.state.decisionCompleted
    ensures r.state.error == Finish(g, o, now).state.error
    ensures ExecutionSucceeded(g, o) || !ExecutionReturned(g, o) ==> r == Finish(g, o, now)
  {
    if ExecutionReturned(g, o) && !ExecutionSucceeded(g, o) then
      Globals(g.state.(running := false, error := Some(KeyErrorMessage(FirstMissingFlag(o.executionState)))), g.mcuLoaded)
    else
      Finish(g, o, now)
  }

  /** While an execution thread is inside `execute()`, the guard refuses a second start. */
  lemma GuardRefusesWhileRunning(g: Globals, o: InitOutcome)
    ensures !ExecuteGuard(Enter(g), o).0
  {
  }

  /**
   * `running` is set only inside the spawned thread, so the guard alone does
   * not exclude overlapping executions: a start that returned True is
   * followed, before its thread runs, by a second start that also returns True.
   */
  lemma GuardAdmitsOverlappingStart(g: Globals, o1: InitOutcome, o2: InitOutcome)
    requires ExecuteGuard(g, o1).0
    ensures ExecuteGuard(ExecuteGuard(g, o1).1, o2).0
  {
  }
}
