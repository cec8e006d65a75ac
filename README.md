# Retail inventory system: dashboard state machine and integration-test report

This project models two small sequential parts of the multi-agent retail inventory optimization system in Dafny and proves properties about them.

**The dashboard's execution-state machine (app.py).** The Flask dashboard keeps two module-level globals, the `system_state` dictionary and `mcu_instance`. Three operations drive them:
- `initialize_system` loads the MasterControlUnit and initializes its agents.
- `execute_system` is the guard that starts an execution thread.
- `_execute_system_thread` runs `execute()` and records its outcome.

The MasterControlUnit is an oracle. What loading, construction, `initialize_agents()` and `execute()` did is an input: `AppState.InitOutcome` and `AppState.ExecOutcome`. `AppState` states each operation as a function on the globals, with its properties as contracts. `App.Dashboard` holds the globals as fields and updates them in place, and each of its methods is proved equal to the matching function.

The thread body is split in two:
- `Enter` marks the system running and clears the error.
- `Finish` runs `execute()`, records its outcome and clears `running`.

Between `execute_system` returning True and the thread's `Enter`, `running` is still false, so a second `execute_system` can start another thread. After `Enter`, a start is refused.

**The dashboard's file helpers (app.py).** `get_report_files` and `get_visualization_files` take the filesystem as an input:
- `existing` is the set of paths `os.path.exists` accepts.
- `listings` maps each directory `os.listdir` can read to the names it returns, in order.

**The integration test (integration_test.py).** `IntegrationTests.IntegrationTest` holds the `test_results` table as a sequence of entries in dictionary order. The pieces are:
- Each `test_*` method overwrites only its own entry. The outcome is a function of what probing the component found: `TestResults.AgentTestResult` for the agent tests and `TestResults.IntegrationTestResult` for the integration run.
- The missing-methods loop is proved to compute `TestResults.Missing`.
- `generate_test_report` appends Markdown lines in loops, and is proved to build exactly `TestReport.Report`. The time stamp is an input.
- `TestReport` proves what the report says about the table: the overall status, one heading per component in table order, the error and methods lines, the integration details and the recommendations.

Python helpers the code relies on are modelled in `PyText` and `PyPath`: `str.join`, `endswith`, `upper`, `replace`, `title`, `str()` of bools and ints, `os.path.join` and `os.path.basename`.

## Model

| member | source | states |
|---|---|---|
| AppState.Initialize | app.py:145-182 | returns True exactly when `initialize_agents()` returned True; success sets `initialized` and clears `error`; every failure sets the error its branch names ("Failed to load MCU module", "Failed to initialize agents", or the exception text) and leaves `initialized` unchanged; no other field of `system_state` changes; `mcu_instance` is set once the constructor ran, even if agent initialization then fails |
| App.Dashboard.InitializeSystem | app.py:145-182 | the in-place update of the fields and the returned flag are exactly `AppState.Initialize` of the old globals |
| AppState.ExecuteGuard | app.py:184-205 | starts a thread exactly when not running and either already initialized or initialization succeeds now; never starts while `running`; an initialized system is left unchanged; an uninitialized one goes through `initialize_system` first; after a start the system is initialized |
| App.Dashboard.ExecuteSystem | app.py:184-205 | the in-place update and the result are exactly `AppState.ExecuteGuard` |
| AppState.Enter | app.py:214-216 | the thread sets `running` and clears `error` and changes nothing else |
| App.Dashboard.EnterExecution | app.py:214-216 | the in-place update is exactly `AppState.Enter` |
| AppState.Finish | app.py:218-241 | `running` is false on every path; the count moves by exactly one and the time is set exactly when `execute()` returned a result without "error"; when `execute()` raised or returned an error, the error is recorded and the count, the time and the three flags are unchanged; a KeyError for a missing `execution_state` entry comes after the count and time moved, keeps the flags copied before it and records the missing key; on success the flags equal the MCU's `execution_state` values; `error` ends as None exactly when it was None and the run succeeded |
| App.Dashboard.FinishExecution | app.py:218-241 | the nested in-place updates are exactly `AppState.Finish` |
| AppState.KeyErrorAfterCount | app.py:229-237 | a run whose `execution_state` lacks a flag is counted and time-stamped although it ends with an error |
| AppState.FinishAllOrNothing | app.py:218-241 | the same outcome as `Finish` with the flags read before the count moves: the count moves exactly on a full success, any error leaves the count, the time and the flags unchanged, and the recorded error is the same |
| AppState.RunExecution | app.py:207-241 | the whole thread body: `running` ends false; the count moves by one exactly when `execute()` returned without error; `error` ends as None exactly on a full success, which copies the three flags and sets the time |
| App.Dashboard.ExecuteSystemThread | app.py:207-241 | the in-place update is exactly `AppState.RunExecution` |
| App.Dashboard.constructor | app.py:105-117 | the initial values of `system_state` and `mcu_instance` |
| AppState.GuardRefusesWhileRunning | app.py:197-198 | once a thread has entered, `execute_system` refuses to start another |
| AppState.GuardAdmitsOverlappingStart | app.py:193-205 | a start that returned True is followed, before its thread runs, by a second start that also returns True |
| App.OverlappingStarts | app.py:193-205 | two `execute_system` calls on a fresh dashboard both start a thread |
| App.StartRefusedWhileRunning | app.py:197-198 | after a start and the thread's entry, a second start is refused and the count is still 0 |
| AppFiles.GetReportFiles | app.py:298-327 | only the keys "system", "eda" and "decision"; each is present exactly when its fixed path exists, and maps to that path |
| AppFiles.ReportPathsDistinct | app.py:309-321 | the three report paths differ, because their base names differ |
| AppFiles.VisualizationFiles | app.py:329-355 | only the keys "eda" and "decision"; each is present exactly when its directory exists, and maps to the image paths of that directory's listing; a listing that raises makes the result `{}` |
| AppFiles.ImagePaths | app.py:342-343 | at most one path per listed name (the contents are stated by `ImagePathsAreImageNames`) |
| AppFiles.ImagePathsAreImageNames | app.py:342-343 | the image paths are the directory joined with exactly the listed names ending in ".png", ".jpg" or ".jpeg", in listing order; their base names read back those names |
| AppFiles.ImagePathsAppend | app.py:342-343 | filtering keeps listing order across consecutive parts of a listing |
| PyPath.BasenameOfJoin | app.py:309-321 | `basename(join(dir, name))` is `name` for a name without '/' |
| TestResults.InitialResults | integration_test.py:65-71 | exactly the five components, in order, all "not_tested" with empty details |
| IntegrationTests.IntegrationTest.constructor | integration_test.py:65-71 | the object starts with the initial table |
| TestResults.InitialResultsNotPassed | integration_test.py:65-71 | the initial table is not all passed and lists no failed component |
| TestResults.WellFormedNamesDistinct | integration_test.py:65-71 | the five component names are distinct |
| TestResults.Missing | integration_test.py:290-293 | every reported name is required and not callable, and there are at most as many as required methods |
| TestResults.MissingIsExactly | integration_test.py:290-293 | a method is missing exactly when it is required and not callable; the list is empty exactly when every required method is callable |
| IntegrationTests.IntegrationTest.MissingMethods | integration_test.py:290-293 | the loop computes exactly `Missing`: the required methods that are not callable, in required-list order |
| TestResults.AgentTestResult | integration_test.py:247-317 | "passed" exactly when the module loaded, the class exists and no method is missing; a pass records `methods_checked` equal to the required list; each failure records the error of the first failing step; never "not_tested" |
| IntegrationTests.IntegrationTest.CheckAgent | integration_test.py:247-317 | overwrites only the given component's entry, with `AgentTestResult`; returns whether it passed |
| IntegrationTests.IntegrationTest.TestDataExtractionAgent | integration_test.py:247-317 | only the "data_extraction" entry changes, to the outcome for the seven required methods |
| IntegrationTests.IntegrationTest.TestEdaAgent | integration_test.py:319-392 | only the "eda" entry changes, to the outcome for the ten required methods |
| IntegrationTests.IntegrationTest.TestDecisionAgent | integration_test.py:394-461 | only the "decision" entry changes, to the outcome for the four required methods |
| IntegrationTests.IntegrationTest.TestMcu | integration_test.py:463-551 | only the "mcu" entry changes, to the outcome for the six required methods |
| TestResults.IntegrationTestResult | integration_test.py:553-660 | "passed" exactly when every step succeeded; a pass keeps the execution state and the report path; a failure records the error of the first failing step: the raised message, "Failed to create test database", "Failed to load MCU module", "Failed to initialize agents", "Execution failed: " and the error, "Failed to generate summary report" when the path is empty or does not exist, or "Failed to get system status: " and the error; never "not_tested" |
| TestResults.RunOutcomes | integration_test.py:672-679 | one outcome per component, in table order, none "not_tested" |
| TestResults.ResultsTable | integration_test.py:672-679 | a well-formed table whose entries hold the given outcomes, in order |
| IntegrationTests.IntegrationTest.TestIntegration | integration_test.py:553-660 | only the "integration" entry changes, to `IntegrationTestResult` |
| TestResults.RunResults | integration_test.py:662-692 | after all five tests the table is well formed and no entry is "not_tested" |
| TestResults.OverwriteAll | integration_test.py:662-692 | the five tests together overwrite every entry of the table, so the old contents do not matter |
| IntegrationTests.IntegrationTest.RunAllTests | integration_test.py:662-692 | runs the five tests in order and returns the table, which is `RunResults` of the probes |
| TestResults.AllPassed | integration_test.py:708 | true exactly when every component's status is "passed" |
| TestResults.FailedComponents | integration_test.py:766 | lists only components whose status is "failed", and no more names than the table has entries |
| TestResults.FailedComponentsComplete | integration_test.py:766 | every component whose status is "failed" is listed |
| TestResults.FailedComponentsNone | integration_test.py:766 | a table without a "failed" entry lists no failed component |
| TestResults.NotTestedIsNeitherPassedNorFailed | integration_test.py:708-766 | a "not_tested" component makes the overall status FAILED and is not listed as failed |
| TestResults.FailedUnlessAllPassed | integration_test.py:708-766 | in a table with no "not_tested" entry, some component is listed as failed exactly when not all passed |
| TestResults.Find | integration_test.py:735-769 | `test_results[name]` returns the result stored under that name |
| TestResults.FindEntry | integration_test.py:735-769 | in a table with distinct names, looking up an entry's name finds that entry |
| TestReport.UpperStatusNames | integration_test.py:717-722 | the upper-cased status is Python's `upper()` of the stored text; it reads "FAILED" exactly for "failed" and "PASSED" exactly for "passed" |
| PyText.UpperChars | integration_test.py:717 | `upper()` maps each character on its own |
| PyText.TitleCases | integration_test.py:720 | `title()` keeps the length, changes only case, and upper-cases exactly the cased characters that start a word |
| TestReport.HeadingIsHeading | integration_test.py:716-720 | a component's heading is a "### " line that ends in its upper-cased status |
| TestReport.ErrorLines | integration_test.py:722-724 | one error line exactly for a failed component, none otherwise |
| TestReport.ComponentBlock | integration_test.py:716-732 | a component's lines start with its heading and end with a blank line |
| IntegrationTests.IntegrationTest.AppendMethodsList | integration_test.py:726-730 | the inner loop appends exactly `MethodsList` of the details |
| TestReport.ComponentBlockLines | integration_test.py:716-732 | a component's lines: its heading; an error line exactly for a failed component; the methods list exactly when the details hold `methods_checked`; then a blank line |
| TestReport.ExecutionStateLines | integration_test.py:740-746 | the label, then four lines; each flag line reads True exactly when the flag is present and true |
| TestReport.ExecutionStateDefaults | integration_test.py:742-747 | a missing execution-state entry prints as False, and a missing count as 0 |
| PyText.NatTextRoundTrip | integration_test.py:747 | the printed execution count reads back as the count |
| TestReport.IntegrationSection | integration_test.py:734-752 | the details appear exactly when the integration status is "passed"; the execution-state lines appear when the details hold it, and the line before the final blank line is the report link `[basename](path)` when they hold a path |
| TestReport.Recommendations | integration_test.py:754-772 | the fixed next steps when all passed; otherwise the introduction, one fix line per failed component and the "run tests again" line |
| TestReport.FixLine | integration_test.py:768-769 | a fix line ends with the component's error |
| TestReport.FixLines | integration_test.py:766-769 | one fix line per listed name (the contents are stated by `FixLinesAreFailedEntries`) |
| TestReport.FixLinesAreFailedEntries | integration_test.py:764-769 | looking each failed name up again yields one fix line per "failed" entry, in table order and with that entry's own error |
| TestReport.FailedRecommendations | integration_test.py:761-772 | after a failed run, the recommendations hold exactly one "Fix issues with" line per "failed" component, never a "not_tested" one, between the introduction and the "run tests again" line |
| TestReport.OverallLinesDiffer | integration_test.py:708-711 | the PASSED and FAILED status lines differ |
| TestReport.Report | integration_test.py:694-772 | the report starts with the title, the time stamp, the overall status and the component heading, and holds at least two more lines |
| TestReport.ReportOverallStatus | integration_test.py:708-711 | the report's status line reads PASSED exactly when every component passed |
| TestReport.BlockHeadings | integration_test.py:716-732 | a component block holds exactly one heading line, its first |
| TestReport.HeadingsOfEntries | integration_test.py:716-720 | the expected headings are one per entry, each at its entry's position |
| TestReport.SectionHeadings | integration_test.py:716-732 | the component sections hold one heading per component, in table order |
| TestReport.ReportHeadings | integration_test.py:694-772 | the whole report holds exactly one component heading per component, in table order, and no other heading line |
| IntegrationTests.IntegrationTest.AppendComponent | integration_test.py:716-732 | the lines one pass of the component loop appends are that component's block |
| IntegrationTests.IntegrationTest.AppendComponents | integration_test.py:716-732 | the component loop appends the blocks of all components, in table order |
| IntegrationTests.IntegrationTest.AppendIntegrationDetails | integration_test.py:734-752 | appends exactly `IntegrationSection` of the integration entry |
| IntegrationTests.IntegrationTest.AppendFixLines | integration_test.py:766-769 | appends one fix line per failed name, with the error looked up under it |
| IntegrationTests.IntegrationTest.AppendRecommendations | integration_test.py:754-772 | appends exactly `Recommendations` of the table |
| IntegrationTests.IntegrationTest.GenerateTestReport | integration_test.py:694-772 | the lines the method appends are exactly `Report` of its table |

## Left out

- The MasterControlUnit (mcu.py) is not part of this model. Its construction, `initialize_agents()`, `execute()`, `execution_state`, `generate_summary_report()` and `get_system_status()` appear only as oracle outcomes.
- Module loading by importlib (`load_module` and `_load_module`) is reduced to "module or none". A failing `getattr` or constructor becomes a raised outcome.
- Threading is left out: `execute_system` only reports that a thread was started. The thread body is a separate step. `running` is set only inside the thread, so the model proves that two starts can overlap. It does not claim mutual exclusion.
- `datetime.now()` is a parameter. `last_execution_time` is an abstract clock reading, and the report's time stamp is an input string.
- Database work is I/O and is left out: sqlite schema and sample data, `get_database_tables` and `get_table_data`.
- Also left out as I/O: file writes of the report and of the JSON results and config, `read_markdown_file`, logging and `print`.
- The Flask routes, the template context processor and matplotlib or seaborn rendering are presentation and are left out.
- filters.py is a thin wrapper over the external markdown library and is left out.
- gunicorn_config.py holds deployment settings that depend on the environment, and is left out.
- wsgi.py is only an entry point and is left out.
- `main()` of the integration test only prints a summary to the console, and is left out.
- The `except` path of `generate_test_report` is reached only through I/O failures, which are not modelled. Without I/O the table always holds an "integration" entry and the report builds.
- `IntegrationTests.IntegrationTest.RunAllTests`: the `except` path of `run_all_tests` is not modelled. It returns `{"error": str(e)}` instead of the table when writing test_results.json fails. That happens on an I/O failure, or when `json.dump` meets a value it cannot serialize. The execution state and the system status come from the MasterControlUnit and are stored as they are, so such a value cannot be ruled out. The model always returns the table, and the five outcomes are in `testResults` on both paths.
- `get_report_files` has an `except` branch that no modelled input reaches, so it is left out.
- The "system_status" entry that a passing integration test stores is never read back, so `Details` does not keep it.
- `PyText.Upper`, `PyText.Title`: case mapping is ASCII only. Python's Unicode case tables are not modelled. The component names and statuses are ASCII.
- `AppState.ExecOutcome`: the "error" value of a result, and any exception text, is assumed to be a string. The three `execution_state` flags are booleans and the count is an int. Python's `str()` of other values is not modelled.
- `AppFiles.VisualizationFiles`, `AppFiles.GetReportFiles`: the result is a `map`, so the insertion order of the Python dictionary's keys is not kept.

## Findings

| source | as written | input that shows it | evidently intended | confidence | as-written member | corrected member |
|---|---|---|---|---|---|---|
| app.py:229-237 | the count and the time move before the three flags are read from `execution_state`, so a KeyError from a missing flag leaves the run counted and time-stamped while `error` is set | `execute()` returns a dictionary without "error" and `execution_state` has no "eda_completed" entry: the count moves by one, "data_extraction_completed" is copied, and `error` is `'eda_completed'` | a run that ends with an error, a KeyError included, moves neither the count, nor the time, nor a flag | low, not executed: whether `execute()` can leave a flag out depends on the MasterControlUnit, which is not part of this model | AppState.KeyErrorAfterCount | AppState.FinishAllOrNothing |

`App.Dashboard` models the dashboard as it is written, so its methods are proved equal to `AppState.Finish`, not to the corrected `AppState.FinishAllOrNothing`. The two agree on every run except a KeyError while copying the flags.
