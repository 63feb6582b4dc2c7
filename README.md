# GeneSort UI view-models in Dafny

GeneSort's desktop client is a WPF application. Its view-models hold the
client's sequential, stateful logic, and this project models that logic and
proves properties of it:

- **The parameter table.** A project's or workspace's run-parameter sets
  become rows of a data grid. Each row is a dictionary holding an `Index`
  entry and one entry per parameter key. The columns are the parameter keys in
  ascending order, preceded by a "Run #" column in the workspace views.
  Selected rows map back to run-parameter sets through their 1-based `Index`
  (module `Grid`).
- **ProjectParamsVm.** Loading and validating a project file, and filtering
  blank report names. Generating a report for the selected sets. The
  run/cancel command pair, whose run loop polls a cancellation flag before
  each selected row. `Dispose` (module `ProjectParams`).
- **WorkspaceParamsVim.** Called `WorkspaceParamsVm` here. It loads a
  workspace without validation and copies report keys unfiltered. The run
  button's state and text follow the selection and the loading flag. It runs
  the selected sets with a cancellation check before each one, and has a
  second, simpler run/cancel pair (module `WorkspaceParams`).
- **WorkspaceViewerViewModel.** Loading a workspace and building its
  read-only grid (module `WorkspaceViewer`).
- **WorkspaceViewModel.** Projecting a project into its name, description,
  key list and per-set maps (module `WorkspaceView`).
- **ExperimentViewModel.**
  - The directory tree of an experiment folder: sub-directories first, then
    files, each group sorted by name.
  - The workspace-file test that chooses a tab's kind.
  - Opening a file, which reuses a tab already showing it or appends a new
    one.
  - Closing a tab (modules `Experiment`, `Tabs`).
- **MainWindowVm.** The initial projects tab, and one new tab per opened
  experiment (module `MainWindow`).

View-models whose fields change in place are classes whose methods state the
new value of every field they modify. Pure decisions are functions. These
include the validation of a decoded project, the text summarising a
selection, how a run ends for a given sequence of user actions, and the grid
a project produces. Lemmas relate the functions to each other and to the
source's promises.

### Inputs that stand for what the view-models cannot see

- **Files and decoding.** Reading a file, decoding it with MessagePack, and
  converting the DTO to a domain record are one input value, `Domain.FileLoad`.
  It says which of these steps throws, with what message, and what the
  conversion returns.
- **The file system.** It is an input tree, `Experiment.FsDir`. Each directory
  has its sub-directories and files in enumeration order, plus a flag saying
  whether listing them throws.
- **User actions during a delay.** What the user does while an awaited delay
  is pending is an input sequence with one entry per loop iteration:
  `Domain.DelayEvent` for the project run, `Domain.RunEvent` for the workspace
  run. It says whether the user cancels during the delay, just after it, or
  not at all.
- **Exceptions.** They are modelled by their messages. The standard .NET
  messages are constants:
  - null dereference: "Object reference not set to an instance of an object."
  - `ArgumentNullException`: "Value cannot be null. (Parameter '…')"
  - canceling a disposed token source: "The CancellationTokenSource has been
    disposed."
- **Progress and run history.** Progress reports are direct field
  assignments. Ghost logs record every report and every started row or
  executed set, so the order of what a run does can be stated.

## Model

| member | source | states |
|---|---|---|
| Grid.BuildProjectRows | GeneSort.UI/ViewModels/ProjectParamsVm.cs:342-372 | building fails, with a null-reference error, exactly when there is a key and some set is null; otherwise the rows are `ProjectRows`: one per set, in array order, row `i` built from set `i` |
| Grid.BuildProjectRow | GeneSort.UI/ViewModels/ProjectParamsVm.cs:348-369 | fails with a null-reference error exactly when there is a key and the set is null; otherwise the row is `ProjectRow(i, set, keys)`; a null key list adds no key entries |
| Grid.AddProjectCells | GeneSort.UI/ViewModels/ProjectParamsVm.cs:356-369 | the first key read from a null set throws a null-reference error, so the loop fails exactly when there is a key and the set is null; otherwise afterwards the row holds exactly `Index`, `RunParams` and every key; each entry is the key's text (`""` for a missing map, key or value), or else the index or the set |
| Grid.ProjectRowBuilt | GeneSort.UI/ViewModels/ProjectParamsVm.cs:349-369 | a dictionary with the entries of row `i` is that row, so the key-by-key writes give the specified row |
| Grid.BuildWorkspaceRows | GeneSort.UI/ViewModels/WorkspaceParamsVm.cs:233-259 | building succeeds exactly when every set and its map can be read (always with no keys); a failure is a null-reference error; on success the rows are `WorkspaceRows`, one per set in order |
| Grid.BuildWorkspaceRow | GeneSort.UI/ViewModels/WorkspaceViewerViewModel.cs:153-174 | one row: fails with a null-reference error exactly when there is a key and the set or its map is null; otherwise it is `WorkspaceRow(i, set, keys)` with `Index = i + 1`, each key's stored value (null kept), `""` when absent |
| Grid.WorkspaceRowBuilt | GeneSort.UI/ViewModels/WorkspaceParamsVm.cs:240-256 | a dictionary with the entries of workspace row `i` is that row |
| Grid.KeyColumnsShowKeys | GeneSort.UI/ViewModels/ProjectParamsVm.cs:325-340 | the key columns are one per key (duplicates included), each headed by and bound to its key, headers ascending and a permutation of the keys |
| Grid.BuildKeyColumns | GeneSort.UI/ViewModels/WorkspaceParamsVm.cs:219-231 | the loop adds exactly the columns of `KeyColumns`, in sorted key order |
| Grid.KeyColumnsUnique | GeneSort.UI/ViewModels/ProjectParamsVm.cs:328 | any two column lists that show the keys ascending are equal: the columns do not depend on how the sort is done |
| Grid.ProjectColumnsBound | GeneSort.UI/ViewModels/ProjectParamsVm.cs:330-366 | every key column's binding is an entry of every project row |
| Grid.WorkspaceColumnsBound | GeneSort.UI/ViewModels/WorkspaceParamsVm.cs:203-256 | every workspace column, "Run #" included, is bound to an entry of every workspace row |
| Grid.WorkspaceGridShape | GeneSort.UI/ViewModels/WorkspaceViewerViewModel.cs:118-175 | the workspace grid has "Run #" first, then the sorted key columns; one row per set; no selection; row `i` has `Index = i + 1` unless a key is named "Index"; every column is bound to an entry of every row |
| Grid.MapSelection | GeneSort.UI/ViewModels/ProjectParamsVm.cs:116-129 | the loop collects exactly `SelectRunParameters`: `arr[Index - 1]` for each selected row with an integer `Index` in `1..|arr|`, in selection order, other rows dropped |
| Grid.SelectAppend | GeneSort.UI/ViewModels/ProjectParamsVm.cs:118-129 | mapping a selection made of two parts maps each part and concatenates, so order is kept |
| Grid.SelectBounded | GeneSort.UI/ViewModels/ProjectParamsVm.cs:121-127 | never more sets than selected rows, and every mapped set is a set of the array |
| Grid.IndexedSelection | GeneSort.UI/ViewModels/ProjectParamsVm.cs:121-126 | rows whose integer `Index` is one more than an array position map back to the sets at those positions, in order |
| Grid.ProjectSelectionRoundTrip | GeneSort.UI/ViewModels/ProjectParamsVm.cs:346-353 | selecting project rows in any order, with repeats, maps back to exactly the sets they were built from, when no key is named "Index" |
| Grid.WorkspaceSelectionRoundTrip | GeneSort.UI/ViewModels/WorkspaceParamsVm.cs:311-322 | the same round trip for the workspace table |
| Grid.ProjectRowIndex | GeneSort.UI/ViewModels/ProjectParamsVm.cs:349-353 | without a key named "Index", project row `i` carries the integer index `i + 1` |
| Grid.WorkspaceRowIndex | GeneSort.UI/ViewModels/WorkspaceParamsVm.cs:240-243 | without a key named "Index", workspace row `i` carries the integer index `i + 1` |
| Grid.IndexKeyDropsProjectRow | GeneSort.UI/ViewModels/ProjectParamsVm.cs:351-366 | for every set, position and key list holding "Index", that key overwrites the row's index with text, so the row has no index and selecting it yields no set |
| Grid.IndexKeyDropsWorkspaceRow | GeneSort.UI/ViewModels/WorkspaceParamsVm.cs:240-256 | the same for the workspace table: a key named "Index" replaces the integer index with the stored value or "", and selecting the row yields no set |
| Grid.SelectionMessage | GeneSort.UI/ViewModels/WorkspaceParamsVm.cs:279-290 | every selection text starts with 'R' exactly while loading, and then with "Running"; otherwise it ends in " selected" (the same wording as ProjectParamsVm.cs:415-422) |
| Grid.SelectionMessageDetermines | GeneSort.UI/ViewModels/ProjectParamsVm.cs:417-422 | the selection text is injective: equal texts mean the same count and the same loading flag |
| ProjectParams.CheckDto | GeneSort.UI/ViewModels/ProjectParamsVm.cs:188-213 | validation accepts exactly a non-null DTO whose conversion yields a project with a non-blank name and a non-empty set array, and then accepts that project; it never reports a failed UI update |
| ProjectParams.RejectionOrder | GeneSort.UI/ViewModels/ProjectParamsVm.cs:189-211 | the checks run in source order: null DTO first, then a null conversion, a blank name, then a null or empty set array |
| ProjectParams.RejectionMessagesDistinct | GeneSort.UI/ViewModels/ProjectParamsVm.cs:191-242 | the four validation failures and the failed UI update raise five different messages |
| ProjectParams.UpdateFailedMessage | GeneSort.UI/ViewModels/ProjectParamsVm.cs:240-261 | a failed UI update raises "Error updating UI with workspace data: " and the null-reference message, and its `catch` block shows that message unchanged |
| ProjectParams.ReportedFailureKeepsMessage | GeneSort.UI/ViewModels/ProjectParamsVm.cs:247-266 | the text set by each catch block ends with the exception's own message |
| ProjectParams.Loaded | GeneSort.UI/ViewModels/ProjectParamsVm.cs:208-213 | the project a successful load stores always has a set array |
| ProjectParams.LoadSucceeds | GeneSort.UI/ViewModels/ProjectParamsVm.cs:81-394 | a load succeeds exactly when the file decodes to a non-null DTO converting to an acceptable project whose grid reads no key from a null set; then exactly that project's display is shown |
| ProjectParams.FailedLoadKeepsGrid | GeneSort.UI/ViewModels/ProjectParamsVm.cs:213-261 | a failed load never replaces the grid or its handlers; a read, decode or validation failure changes nothing shown; a failed UI update has already stored the project, its texts and report keys, and raises the update-failure message |
| ProjectParams.NonBlank | GeneSort.UI/ViewModels/ProjectParamsVm.cs:225-235 | the filtered report keys are no more than the names, and each is a non-blank name from the list |
| ProjectParams.NonBlankAppend | GeneSort.UI/ViewModels/ProjectParamsVm.cs:228-234 | filtering distributes over concatenation, so the original order is kept |
| ProjectParams.NonBlankKeeps | GeneSort.UI/ViewModels/ProjectParamsVm.cs:230-233 | no non-blank name is lost |
| ProjectParams.NonBlankClean | GeneSort.UI/ViewModels/ProjectParamsVm.cs:228-234 | a list without null or blank names is kept whole, element by element |
| ProjectParams.RunReportsAt | GeneSort.UI/ViewModels/ProjectParamsVm.cs:454-461 | the `k`-th progress report of a run names the `k`-th started row and counts `k + 1`; when no more rows start than were selected, `1 <= current <= total` |
| ProjectParams.RunReportsExtend | GeneSort.UI/ViewModels/ProjectParamsVm.cs:459-461 | starting one more row appends exactly that row's report |
| ProjectParams.ReportProgressAt | GeneSort.UI/ViewModels/ProjectParamsVm.cs:170-173 | the `k`-th report-generation progress report counts set `k + 1` of the total, between 1 and the total |
| ProjectParams.FirstCancelFromIsFirst | GeneSort.UI/ViewModels/ProjectParamsVm.cs:454-463 | the first canceling iteration from `i` on is found: all earlier delays elapsed, and the one found did not |
| ProjectParams.FirstCancelIsFirst | GeneSort.UI/ViewModels/ProjectParamsVm.cs:454-463 | the first iteration whose delay sees a cancellation: every earlier one elapsed |
| ProjectParams.RunOutcomeFinished | GeneSort.UI/ViewModels/ProjectParamsVm.cs:454-471 | a run says "Finished" exactly when no delay saw a cancellation, and then it started every row; otherwise it says "Operation canceled" and stopped right after the row during which the cancellation came |
| ProjectParams.ProjectGridShape | GeneSort.UI/ViewModels/ProjectParamsVm.cs:325-374 | the project grid's columns are the keys ascending; one row per set; no selection; row `i` has `Index = i + 1` and `RunParams` = set `i` unless a key has that name; every column is bound to an entry of every row |
| ProjectParams.ProjectParamsVm.CanRunOperation | GeneSort.UI/ViewModels/ProjectParamsVm.cs:489-492 | run is enabled iff no run is in progress and rows are selected, and then cancel is disabled |
| ProjectParams.ProjectParamsVm.CanCancelOperation | GeneSort.UI/ViewModels/ProjectParamsVm.cs:504-507 | cancel is enabled only while a run is in progress |
| ProjectParams.ProjectParamsVm.constructor | GeneSort.UI/ViewModels/ProjectParamsVm.cs:18-79 | every field starts at its initialiser: empty texts, no grid, no project, "No runs selected", both commands disabled |
| ProjectParams.ProjectParamsVm.LoadWorkspaceAsync | GeneSort.UI/ViewModels/ProjectParamsVm.cs:81-103 | never throws and clears `IsLoading`; records the path; on failure the error text is "Error loading workspace: " and the escaping message; on success the error is cleared; what is shown is `LoadShown` of the old display (see `LoadSucceeds` and `FailedLoadKeepsGrid`) |
| ProjectParams.ProjectParamsVm.BeginLoad | GeneSort.UI/ViewModels/ProjectParamsVm.cs:85-87 | the load raises `IsLoading`, clears the error and records the path; nothing shown changes |
| ProjectParams.ProjectParamsVm.ReadAndLoad | GeneSort.UI/ViewModels/ProjectParamsVm.cs:90-93 | the message that escapes reading, decoding and loading is `LoadError`; the new display is `LoadShown` of the old one; a success leaves the error text alone |
| ProjectParams.ProjectParamsVm.EndLoad | GeneSort.UI/ViewModels/ProjectParamsVm.cs:95-102 | an escaping exception replaces the error text with the load-failure text; `IsLoading` ends false; nothing shown changes |
| ProjectParams.ProjectParamsVm.LoadProjectDto | GeneSort.UI/ViewModels/ProjectParamsVm.cs:182-267 | rethrows exactly when validation rejects or the UI update throws (`DtoFailure`); then the message is the failure's own and the error text is the one its `catch` block sets; otherwise the error text stays; what is shown is `DtoShown` of the old display |
| ProjectParams.ProjectParamsVm.ReportFailure | GeneSort.UI/ViewModels/ProjectParamsVm.cs:247-266 | the `catch` block for a failure sets the text `ReportedFailure` gives and changes nothing shown |
| ProjectParams.ProjectParamsVm.ShowAccepted | GeneSort.UI/ViewModels/ProjectParamsVm.cs:213-261 | an accepted project is shown; the update throws exactly when its grid reads a key from a null set, and then the error text is the wrapped message, which is rethrown |
| ProjectParams.ProjectParamsVm.ShowProject | GeneSort.UI/ViewModels/ProjectParamsVm.cs:213-244 | after storing an accepted project, the texts (null as "") and the filtered report keys are shown, and the project grid with its handlers unless building it throws; that exception is rethrown wrapped as "Error updating UI with workspace data: …" |
| ProjectParams.ProjectParamsVm.StoreProject | GeneSort.UI/ViewModels/ProjectParamsVm.cs:213-235 | the project is stored and its texts and non-blank report names shown; the grid is left as it was |
| ProjectParams.ProjectParamsVm.LoadReportKeys | GeneSort.UI/ViewModels/ProjectParamsVm.cs:225-235 | the report keys are cleared and become the non-blank names in order; a null list leaves them empty |
| ProjectParams.ProjectParamsVm.CreateParametersDataGrid | GeneSort.UI/ViewModels/ProjectParamsVm.cs:269-394 | throws a null-reference error exactly when there is a key and some set is null, and then changes nothing; otherwise the installed grid is `ProjectGrid(p)` and the grid's handlers are attached |
| ProjectParams.ProjectParamsVm.SelectionChanged | GeneSort.UI/ViewModels/ProjectParamsVm.cs:405-423 | the grid records the new selection; with the handler attached the count becomes its size and the run message describes it |
| ProjectParams.ProjectParamsVm.PreviewMouseDownHandled | GeneSort.UI/ViewModels/ProjectParamsVm.cs:396-403 | a mouse press is swallowed iff a run is in progress, and then run is disabled |
| ProjectParams.ProjectParamsVm.GenerateReport | GeneSort.UI/ViewModels/ProjectParamsVm.cs:105-133 | does nothing iff there is no grid, no project, an empty key or no selection; otherwise generates for exactly the mapped sets, one progress report per set, and ends with the progress fields cleared |
| ProjectParams.ProjectParamsVm.ExecuteReportGeneration | GeneSort.UI/ViewModels/ProjectParamsVm.cs:135-180 | reports "Processing parameter set k of n" for each set in order, then clears `IsLoading` and the progress fields, with no error |
| ProjectParams.ProjectParamsVm.RunOperation | GeneSort.UI/ViewModels/ProjectParamsVm.cs:427-487 | every exit clears the run flags, progress fields and token source; without a grid the run fails with "Operation failed" and the "Error during operation: " text; otherwise it starts the selected rows in order up to the first cancellation, reports `i + 1` of the total for each, and ends "Finished" or "Operation canceled" as `RunOutcome` says |
| ProjectParams.ProjectParamsVm.BeginRun | GeneSort.UI/ViewModels/ProjectParamsVm.cs:430-433 | a run raises both flags, makes a fresh token source and clears the error |
| ProjectParams.ProjectParamsVm.RunAndFinish | GeneSort.UI/ViewModels/ProjectParamsVm.cs:435-486 | after the `try` and `finally` blocks the run flags, progress fields and token source are cleared; without a grid the run failed; otherwise the message, started rows and reports are those of `RunOutcome`, `Started` and `RunReports` |
| ProjectParams.ProjectParamsVm.RunSelectionAndFinish | GeneSort.UI/ViewModels/ProjectParamsVm.cs:442-486 | a run over the selection followed by the `finally` block: `RunOutcome`'s message, the first `Started` rows started in order with their reports, and everything cleared |
| ProjectParams.ProjectParamsVm.EndRun | GeneSort.UI/ViewModels/ProjectParamsVm.cs:477-486 | the `finally` block clears both flags, the progress fields and the token source |
| ProjectParams.ProjectParamsVm.FailNoItems | GeneSort.UI/ViewModels/ProjectParamsVm.cs:437-440 | a run without a grid ends with "Operation failed" and the no-items error, the flags cleared |
| ProjectParams.ProjectParamsVm.RunSelection | GeneSort.UI/ViewModels/ProjectParamsVm.cs:442-466 | over the selected rows, the run message, the started rows and the progress reports are those `RunOutcome`, `Started` and `RunReports` give |
| ProjectParams.ProjectParamsVm.RunRows | GeneSort.UI/ViewModels/ProjectParamsVm.cs:454-464 | the loop starts exactly the first `Started` rows in selection order and reports each; cancellation is requested iff some iteration canceled |
| ProjectParams.ProjectParamsVm.RunStep | GeneSort.UI/ViewModels/ProjectParamsVm.cs:454-464 | one turn of the loop keeps its invariant `RunLoop`: row `i` is started and reported, and the token is canceled only when iteration `i` is the first to cancel |
| ProjectParams.ProjectParamsVm.RunRow | GeneSort.UI/ViewModels/ProjectParamsVm.cs:459-463 | one iteration reports `current` of `total` with the row's index text, shows "Executing Run …", and the token is canceled iff the user canceled |
| ProjectParams.ProjectParamsVm.CancelOperation | GeneSort.UI/ViewModels/ProjectParamsVm.cs:498-502 | requests cancellation when a live token source exists; a disposed one throws and nothing changes; none does nothing |
| ProjectParams.ProjectParamsVm.Dispose | GeneSort.UI/ViewModels/ProjectParamsVm.cs:513-546 | disposes once: the first call cancels and disposes the token source and detaches the grid handlers; later calls change nothing |
| WorkspaceParams.LoadSucceeds | GeneSort.UI/ViewModels/WorkspaceParamsVm.cs:140-166 | a load succeeds exactly when the file converts to a workspace with report keys and a buildable grid; then the workspace, texts, report keys exactly as stored (unfiltered) and grid are shown |
| WorkspaceParams.FailedLoadKeepsGrid | GeneSort.UI/ViewModels/WorkspaceParamsVm.cs:144-163 | a failed load never replaces the grid; the workspace (or null) is stored before the failure once conversion returns |
| WorkspaceParams.SelectFromEmpty | GeneSort.UI/ViewModels/WorkspaceParamsVm.cs:314-320 | no row maps to a set of an empty array |
| WorkspaceParams.MapWorkspaceSelection | GeneSort.UI/ViewModels/WorkspaceParamsVm.cs:309-322 | fails with a null-reference error exactly when the array is null and some row's `Index` is at least 1; otherwise it collects `SelectRunParameters` in selection order |
| WorkspaceParams.ExecutionFromOutcome | GeneSort.UI/ViewModels/WorkspaceParamsVm.cs:339-367 | from set `i` on, processed sets are in order and each ran; a failure is at the set whose description threw; a cancellation is noticed in its delay or at the check after |
| WorkspaceParams.ExecutionOutcome | GeneSort.UI/ViewModels/WorkspaceParamsVm.cs:339-367 | sets are processed in order, never more than selected, each one's delay completed; the run stops at a failure, a cancellation during a delay, or the check after a cancellation |
| WorkspaceParams.UndisturbedRunCompletes | GeneSort.UI/ViewModels/WorkspaceParamsVm.cs:339-348 | with no cancellation and no failure every set is processed |
| WorkspaceParams.WorkspaceParamsVm.CanRunOperation | GeneSort.UI/ViewModels/WorkspaceParamsVm.cs:431-434 | the second run command is enabled iff no run is in progress, and then cancel is disabled |
| WorkspaceParams.WorkspaceParamsVm.CanCancelOperation | GeneSort.UI/ViewModels/WorkspaceParamsVm.cs:442-445 | the second cancel command is enabled only while a run is in progress |
| WorkspaceParams.WorkspaceParamsVm.constructor | GeneSort.UI/ViewModels/WorkspaceParamsVm.cs:16-55 | the fields start at their initialisers, run disabled, "No runs selected" |
| WorkspaceParams.WorkspaceParamsVm.UpdateButtonStates | GeneSort.UI/ViewModels/WorkspaceParamsVm.cs:279-290 | run is enabled iff the count is positive; the text is the 0 / 1 / n wording, in its "Running" form while loading |
| WorkspaceParams.WorkspaceParamsVm.OnIsLoadingChanged | GeneSort.UI/ViewModels/WorkspaceParamsVm.cs:382-390 | with a grid the button states follow its selection; without one they stay |
| WorkspaceParams.WorkspaceParamsVm.SetIsLoading | GeneSort.UI/ViewModels/WorkspaceParamsVm.cs:28-29 | the generated setter: only a change of value recomputes the button states |
| WorkspaceParams.WorkspaceParamsVm.SelectionChanged | GeneSort.UI/ViewModels/WorkspaceParamsVm.cs:270-277 | the grid records the selection and the button states follow it; without a grid nothing changes; the invariant `ButtonsMatch` is kept |
| WorkspaceParams.WorkspaceParamsVm.LoadWorkspaceAsync | GeneSort.UI/ViewModels/WorkspaceParamsVm.cs:57-79 | never throws; clears `IsLoading`; records the path; the error text is "Error loading workspace: " and the escaping message, or cleared; what is shown is `LoadShown` of the old display; the button states follow the grid's selection |
| WorkspaceParams.WorkspaceParamsVm.ReadAndShow | GeneSort.UI/ViewModels/WorkspaceParamsVm.cs:66-69 | the message escaping the `try` block is `LoadError` and the new display `LoadShown` |
| WorkspaceParams.WorkspaceParamsVm.LoadWorkspaceData | GeneSort.UI/ViewModels/WorkspaceParamsVm.cs:140-166 | stores the converted workspace before reading it; the escaping message and the new display are `DataError` and `DataShown` |
| WorkspaceParams.WorkspaceParamsVm.LoadReportKeys | GeneSort.UI/ViewModels/WorkspaceParamsVm.cs:156-160 | the keys are cleared, then become the workspace's keys exactly, null and blank included; a null list throws after the clear |
| WorkspaceParams.WorkspaceParamsVm.CreateParametersDataGrid | GeneSort.UI/ViewModels/WorkspaceParamsVm.cs:168-268 | throws as `WorkspaceGridError` says; otherwise installs `WorkspaceGrid`; a throw leaves the old grid |
| WorkspaceParams.WorkspaceParamsVm.CancelRun | GeneSort.UI/ViewModels/WorkspaceParamsVm.cs:295-298 | requests cancellation of the run's token source, if any |
| WorkspaceParams.WorkspaceParamsVm.RunSelected | GeneSort.UI/ViewModels/WorkspaceParamsVm.cs:292-329 | while loading it only requests cancellation; without a grid, workspace or selection it does nothing; otherwise it executes the mapped sets, processing them as `ExecutionFrom` says and reporting only a non-cancellation failure |
| WorkspaceParams.WorkspaceParamsVm.ExecuteRunParameters | GeneSort.UI/ViewModels/WorkspaceParamsVm.cs:331-381 | processes the sets `ExecutionFrom` determines, in order; a failure sets "Error executing runs: …" and a cancellation leaves the error; afterwards `IsLoading` is false, the token source is null and the buttons follow the selection |
| WorkspaceParams.WorkspaceParamsVm.RunSets | GeneSort.UI/ViewModels/WorkspaceParamsVm.cs:339-363 | the loop ends as `ExecutionFrom` says and processes the first `Processed` sets in order |
| WorkspaceParams.WorkspaceParamsVm.RunOperation | GeneSort.UI/ViewModels/WorkspaceParamsVm.cs:408-429 | whether or not the delay is canceled, the run ends with both flags false and no token source, run enabled and cancel disabled |
| WorkspaceParams.WorkspaceParamsVm.CancelOperation | GeneSort.UI/ViewModels/WorkspaceParamsVm.cs:436-440 | requests cancellation of the current token source, if any |
| WorkspaceViewer.LoadSucceeds | GeneSort.UI/ViewModels/WorkspaceViewerViewModel.cs:63-82 | a load succeeds exactly when the file converts to a workspace whose grid can be built; then the workspace, its texts and its grid are shown |
| WorkspaceViewer.FailedLoadKeepsGrid | GeneSort.UI/ViewModels/WorkspaceViewerViewModel.cs:63-82 | a failed load never replaces the grid, and changes nothing when the file could not be read, decoded or converted |
| WorkspaceViewer.WorkspaceViewerViewModel.constructor | GeneSort.UI/ViewModels/WorkspaceViewerViewModel.cs:15-37 | the fields start at their initialisers |
| WorkspaceViewer.WorkspaceViewerViewModel.LoadWorkspaceAsync | GeneSort.UI/ViewModels/WorkspaceViewerViewModel.cs:39-61 | never throws; clears `IsLoading`; records the path; the error text is "Error loading workspace: " and the escaping message, or cleared; what is shown is `LoadShown` of the old display |
| WorkspaceViewer.WorkspaceViewerViewModel.ReadAndShow | GeneSort.UI/ViewModels/WorkspaceViewerViewModel.cs:48-51 | the escaping message is `LoadError` and the new display `LoadShown` |
| WorkspaceViewer.WorkspaceViewerViewModel.LoadWorkspaceData | GeneSort.UI/ViewModels/WorkspaceViewerViewModel.cs:63-82 | stores the converted workspace before reading it; a null workspace throws after being stored; the texts come from the workspace |
| WorkspaceViewer.WorkspaceViewerViewModel.CreateParametersDataGrid | GeneSort.UI/ViewModels/WorkspaceViewerViewModel.cs:84-179 | throws as `WorkspaceGridError` says, leaving the old grid; otherwise installs `WorkspaceGrid` |
| WorkspaceView.WorkspaceViewModel.constructor | GeneSort.UI/ViewModels/WorkspaceViewModel.cs:9-18 | the property initialisers: empty key list and data |
| WorkspaceView.WorkspaceViewModel.Create | GeneSort.UI/ViewModels/WorkspaceViewModel.cs:20-37 | a null project is rejected with an argument-null error, then null keys, a null array, or a null set or map throw in that order; otherwise name, description and keys equal the project's and there is one map per set, in order, equal to its map |
| WorkspaceView.CopyMap | GeneSort.UI/ViewModels/WorkspaceViewModel.cs:30-34 | copying entry by entry yields a dictionary equal to the set's map |
| Experiment.IsWorkspaceFile | GeneSort.UI/ViewModels/ExperimentViewModel.cs:115-124 | a file is a workspace file exactly when its lower-cased path ends in ".workspace", or its lower-cased name contains "workspace" or ends in ".msgpack" |
| Experiment.ExtensionIsWorkspace | GeneSort.UI/ViewModels/ExperimentViewModel.cs:121 | the extension test is the same as a suffix test on the lower-cased path |
| Experiment.IsWorkspaceFileIgnoresCase | GeneSort.UI/ViewModels/ExperimentViewModel.cs:115-124 | the classification gives the same answer for a lower-cased path and name |
| Experiment.FileLeaf | GeneSort.UI/ViewModels/ExperimentViewModel.cs:166-171 | a file leaf is not a directory, has no children, keeps the full path and is named by the path's last segment |
| Experiment.DirectoryChildren | GeneSort.UI/ViewModels/ExperimentViewModel.cs:153-177 | a directory node has one child per sub-directory and file; none when listing the sub-directories throws, and no files when only listing them throws |
| Experiment.LoadDirectory | GeneSort.UI/ViewModels/ExperimentViewModel.cs:144-180 | the recursive loader builds exactly `DirectoryTree(d)` |
| Experiment.LoadSubTrees | GeneSort.UI/ViewModels/ExperimentViewModel.cs:156-160 | adds the trees of the sorted sub-directories, one by one, in order |
| Experiment.LoadLeaves | GeneSort.UI/ViewModels/ExperimentViewModel.cs:163-172 | adds one leaf per sorted file, in order |
| Experiment.SubTreesAt | GeneSort.UI/ViewModels/ExperimentViewModel.cs:157-160 | the `i`-th sub-tree is the tree of the `i`-th sorted sub-directory |
| Experiment.ListedChildren | GeneSort.UI/ViewModels/ExperimentViewModel.cs:156-172 | a fully listed directory's children are its sorted sub-directory trees followed by its sorted file leaves |
| Experiment.DirectoryChildrenDirs | GeneSort.UI/ViewModels/ExperimentViewModel.cs:156-160 | the children start with the trees of a permutation of the sub-directories sorted by name |
| Experiment.DirectoryChildrenFiles | GeneSort.UI/ViewModels/ExperimentViewModel.cs:163-172 | after them come leaves for a permutation of the files sorted by name |
| Experiment.DirectoryNamesAscend | GeneSort.UI/ViewModels/ExperimentViewModel.cs:156-160 | the first children are directories, ascending by name |
| Experiment.FileNamesAscend | GeneSort.UI/ViewModels/ExperimentViewModel.cs:163-172 | the remaining children are files, ascending by name |
| Experiment.NewTab | GeneSort.UI/ViewModels/ExperimentViewModel.cs:85-112 | the new tab is headed by the file name and shows its path, in a workspace view iff it is a workspace file |
| Experiment.ExperimentViewModel.constructor | GeneSort.UI/ViewModels/ExperimentViewModel.cs:12-40 | nothing is selected, no tree and no tabs |
| Experiment.ExperimentViewModel.SelectionAction | GeneSort.UI/ViewModels/ExperimentViewModel.cs:46-50 | the selected item is the object when it is a directory item and null otherwise; a file can be opened iff the selection is a file item |
| Experiment.ExperimentViewModel.SetExperimentPath | GeneSort.UI/ViewModels/ExperimentViewModel.cs:18-19 | the generated setter: a new non-empty path rebuilds the tree and closes every tab; the same, null or empty path leaves both alone |
| Experiment.ExperimentViewModel.OnExperimentPathChanged | GeneSort.UI/ViewModels/ExperimentViewModel.cs:55-61 | a null or empty path changes nothing; otherwise the tree is that of the directory and the tabs are empty |
| Experiment.ExperimentViewModel.OpenSelectedFile | GeneSort.UI/ViewModels/ExperimentViewModel.cs:64-113 | no selection or a directory changes nothing; an existing tab showing the path is selected and the tabs stay; otherwise exactly one new tab is appended and selected |
| Experiment.ExperimentViewModel.CloseFileTab | GeneSort.UI/ViewModels/ExperimentViewModel.cs:138-142 | the tabs lose the first occurrence of the tab |
| Experiment.OpenTwiceReuses | GeneSort.UI/ViewModels/ExperimentViewModel.cs:73-95 | after a file's tab has been appended, opening it again finds that tab, so at most one tab per file is added |
| Tabs.FirstShowingIsFirst | GeneSort.UI/ViewModels/ExperimentViewModel.cs:73-75 | the tab searched for is the first showing the path, in a file viewer or a workspace view |
| Tabs.FirstShowingAppend | GeneSort.UI/ViewModels/ExperimentViewModel.cs:73-75 | searching a concatenation searches the second part only when the first has no match |
| Tabs.FindTabShowing | GeneSort.UI/ViewModels/ExperimentViewModel.cs:73-77 | the search returns the first tab showing the path, or nothing when none does |
| Tabs.IndexOfIsFirst | GeneSort.UI/ViewModels/ExperimentViewModel.cs:141 | the position found is that of the first occurrence, and lies past the end iff the tab is absent |
| Tabs.RemoveFirstAbsent | GeneSort.UI/ViewModels/ExperimentViewModel.cs:141 | removing a tab that is not there changes nothing |
| Tabs.RemoveFirstPresent | GeneSort.UI/ViewModels/ExperimentViewModel.cs:141 | removing a tab that is there takes out exactly one copy of it and keeps one fewer tab |
| MainWindow.Opened | GeneSort.UI/ViewModels/MainWindowVm.cs:31-46 | a null or empty name keeps the tabs; otherwise the old tabs are followed by exactly one experiment tab headed by the name |
| MainWindow.MainWindowVm.constructor | GeneSort.UI/ViewModels/MainWindowVm.cs:21-29 | the window starts with exactly the "Projects" tab |
| MainWindow.MainWindowVm.OpenExperiment | GeneSort.UI/ViewModels/MainWindowVm.cs:31-46 | the tabs become `Opened(old tabs, name)` |
| MainWindow.OpenTwiceDuplicates | GeneSort.UI/ViewModels/MainWindowVm.cs:45 | opening the same experiment twice adds two equal tabs, keeping the earlier tabs |
| MainWindow.ProjectsTabStaysFirst | GeneSort.UI/ViewModels/MainWindowVm.cs:21-45 | whatever experiments are opened, the projects tab stays first |
| Strings.ExtensionLower | GeneSort.UI/ViewModels/ExperimentViewModel.cs:121 | the extension of a lower-cased path is the lower-cased extension |
| Strings.ExtensionOfSuffix | GeneSort.UI/ViewModels/ExperimentViewModel.cs:121 | a path ending in ".w", `w` a plain segment, has extension ".w" |
| Strings.FileName | GeneSort.UI/ViewModels/ExperimentViewModel.cs:148 | the file name is a suffix of the path without separators, preceded by a separator or the whole path |
| Strings.ParseNatToString | GeneSort.UI/ViewModels/ProjectParamsVm.cs:421 | the printed count reads back as the count |
| Strings.LeTransitive | GeneSort.UI/ViewModels/ProjectParamsVm.cs:328 | the key order is transitive |
| Strings.LeAntisymmetric | GeneSort.UI/ViewModels/ProjectParamsVm.cs:328 | two keys each at most the other are equal |
| Sorting.SortBySorted | GeneSort.UI/ViewModels/ExperimentViewModel.cs:156 | `OrderBy` returns its input ascending by key and as a permutation |
| Sorting.AscendingUnique | GeneSort.UI/ViewModels/ProjectParamsVm.cs:328 | two ascending arrangements of the same strings are equal |

## Left out

- Reading files, MessagePack decoding and DTO conversion are foreign calls. They are the input `Domain.FileLoad`, which says which step throws and what the conversion returns.
- `OrderBy(k => k)` compares strings by the current culture. The model uses ordinal order (`Strings.Le`), and proves only sortedness in that order and a permutation.
- `Strings.Lower` lower-cases only ASCII letters, unlike the full `ToLowerInvariant` mapping.
- `Strings.FileName` and `Strings.Extension` split on `\` and `/` only. They do not treat volume roots (`C:`) or invalid path characters specially.
- `Task.Run`, `Dispatcher.Invoke` and `Task.Delay` are not modelled as time or threads. The user's actions during each delay are input sequences, and `Dispatcher.Invoke` is taken to rethrow unchanged.
- `Progress<T>` posting is modelled as a direct assignment, with no claim about delivery order.
- The UI update in `LoadProjectDto` can throw in the model only where building the grid reads a key from a null set. The update's other calls (`ReportKeys.Clear`, the weak-event wiring, the WPF column and binding constructors) are taken not to throw.
- `ProjectParams.ProjectParamsVm.ExecuteReportGeneration`: no failure inside the report loop is modelled. The only call there that could throw is the debug description of a set, which runs only in debug builds (a null set would throw there). So the "Error generating report" text never arises in the model.
- Null parameter keys are not modelled: keys are non-null strings. In the source a null key throws an argument-null error when it is used as a row key or looked up, and a key column would get a null header. The members this affects are `Grid.BuildProjectRows`, `Grid.BuildProjectRow`, `Grid.AddProjectCells`, `Grid.BuildWorkspaceRows`, `Grid.BuildWorkspaceRow`, `Grid.KeyColumns`, `Grid.BuildKeyColumns`, the three `CreateParametersDataGrid` methods and `WorkspaceView.WorkspaceViewModel.Create`. Null run-parameter sets and null parameter maps are modelled.
- WorkspaceParamsVm's `GenerateReport` and `ExecuteReportGeneration` (WorkspaceParamsVm.cs:81-138) are not modelled. They only set the loading flag around a fixed delay and debug output.
- The report-generation delay and `Debug.WriteLine` output are left out. In `ExecuteRunParameters`, the description of a set throwing is the `DescribeFailed` event.
- A conversion that throws has its own exception kind, which the model does not see. It is reported as unexpected ("Unexpected error loading project data: …").
- `Experiment.ExperimentViewModel.OpenSelectedFile`: the awaited load of a newly opened workspace tab (ExperimentViewModel.cs:99) is not composed in. The new tab's content is identified by its path only, and the workspace load is modelled on its own by `WorkspaceParams.WorkspaceParamsVm.LoadWorkspaceAsync`.
- FileViewerViewModel.cs, which reads the file a plain viewer shows, is not part of this model.
- Tabs are compared by value, not by reference. `CloseFileTab` removes the first equal tab, and the existing-tab search returns the first tab showing the path.
- Not modelled:
  - WPF styles, brushes and column widths
  - dependency-property controls and behaviours
  - value converters
  - the folder-dialog and listing view-models
  - `GC.SuppressFinalize`
- Weak-event handler wiring is reduced to the flag `handlersAttached`.
- ExperimentViewModel refers to `WorkspaceParamsVm`, but WorkspaceParamsVm.cs declares the class `WorkspaceParamsVim`. The model has one class, `WorkspaceParams.WorkspaceParamsVm`.
- The `ToString()` of a row's `Index` entry is modelled for integer and text values. A `RunParams` object or a null value in that position prints as "".
