/**
 * The workspace parameters view-model (declared as `WorkspaceParamsVim`):
 * loading a workspace file, showing its run-parameter sets in a grid with a
 * "Run #" column, keeping the run button and the selection text in step with
 * the selection and the loading flag, running the selected sets with a
 * cancellation check before each one, and a second, simpler run/cancel pair.
 *
 * Unlike the project view-model, this one does not validate what it loads:
 * it stores the converted workspace first and then reads its fields, so a
 * null field surfaces as an exception part-way through, after some of the
 * state has already changed. Report keys are copied as they are, null and
 * blank ones included.
 *
 * What the user does while a run awaits its delays is an input sequence of
 * `RunEvent`s, one per set. The sets whose delay completed and that were
 * described are appended to the ghost log `executed`.
 */
module WorkspaceParams {
  import opened Wrappers
  import opened Strings
  import opened Domain
  import opened Grid

  // ---------------------------------------------------------------------------
  // Loading

  /** What loading a workspace determines: the workspace, its texts, its report keys and its grid. */
  datatype Display = Display(
    workspace: Option<Project>,
    workspaceName: Option<string>,
    workspaceDescription: Option<string>,
    rootDirectory: Option<string>,
    reportKeys: seq<Option<string>>,
    grid: Option<DataGrid>)

  /**
   * The message of the exception that showing a converted workspace throws:
   * copying null report keys, or building its grid.
   */
  function ShowError(w: Project): Option<string> {
    if w.reportNames.None? then Some(NullReferenceMessage) else WorkspaceGridError(w)
  }

  /**
   * What is shown after the converted workspace `w` has been handled, from
   * `s`: the workspace and its texts are stored at once, the report keys are
   * cleared and copied unless they are null, and the grid is replaced only
   * when it could be built.
   */
  function ShowWorkspace(s: Display, w: Project): Display {
    Display(Some(w), w.name, w.description, w.rootDirectory,
            if w.reportNames.Some? then w.reportNames.value else [],
            if ShowError(w).None? then Some(WorkspaceGrid(w)) else s.grid)
  }

  /** The message of the exception that escapes converting and showing a decoded DTO, if any. */
  function DataError(conversion: Conversion): Option<string> {
    match conversion
    case ConversionThrows(m) => Some(m)
    case ConversionReturns(None) => Some(NullReferenceMessage)
    case ConversionReturns(Some(w)) => ShowError(w)
  }

  /** What is shown after converting a decoded DTO: a null conversion result is stored before it is dereferenced. */
  function DataShown(s: Display, conversion: Conversion): Display {
    match conversion
    case ConversionThrows(_) => s
    case ConversionReturns(None) => s.(workspace := None)
    case ConversionReturns(Some(w)) => ShowWorkspace(s, w)
  }

  /** The message of the exception that escapes reading, decoding, converting and showing a file, if any. */
  function LoadError(load: FileLoad): Option<string> {
    match load
    case ReadFailed(m) => Some(m)
    case DecodeFailed(m) => Some(m)
    case Decoded(_, conversion) => DataError(conversion)
  }

  /** What is shown after loading a file, from `s`. */
  function LoadShown(s: Display, load: FileLoad): Display {
    match load
    case ReadFailed(_) => s
    case DecodeFailed(_) => s
    case Decoded(_, conversion) => DataShown(s, conversion)
  }

  /**
   * A load succeeds exactly when the file converts to a workspace with report
   * keys, parameter keys, an array and readable maps; then the workspace, its
   * texts, its report keys exactly as stored, and its grid are shown.
   */
  lemma LoadSucceeds(s: Display, load: FileLoad)
    ensures LoadError(load).None? <==>
              load.Decoded? && load.conversion.ConversionReturns? && load.conversion.result.Some?
              && ShowError(load.conversion.result.value).None?
    ensures LoadError(load).None? ==>
              var w := load.conversion.result.value;
              && LoadShown(s, load) == Display(Some(w), w.name, w.description, w.rootDirectory, w.reportNames.value, Some(WorkspaceGrid(w)))
              && WorkspaceGridError(w).None? && w.reportNames.Some?
  {
  }

  /**
   * A failed load never replaces the grid. It leaves the stored workspace as
   * it was only when the file could not be read, decoded or converted;
   * otherwise the converted workspace (or null) is stored although the load
   * fails.
   */
  lemma FailedLoadKeepsGrid(s: Display, load: FileLoad)
    requires LoadError(load).Some?
    ensures LoadShown(s, load).grid == s.grid
    ensures (load.ReadFailed? || load.DecodeFailed? || load.conversion.ConversionThrows?) ==> LoadShown(s, load) == s
    ensures load.Decoded? && load.conversion.ConversionReturns? ==> LoadShown(s, load).workspace == load.conversion.result
  {
  }

  // ---------------------------------------------------------------------------
  // Mapping the selection to sets

  /** Some selected row has an integer "Index" of at least 1, so that mapping it reads the array's length. */
  predicate ReadsLength(selected: seq<Row>) {
    exists k :: 0 <= k < |selected| && RowIndex(selected[k]).Some? && RowIndex(selected[k]).value >= 1
  }

  /**
   * The sets the run command would run, or None when it does nothing: no
   * grid, no workspace or an empty selection. Mapping the selection through
   * a null array throws as soon as a row's "Index" is at least 1.
   */
  function RunRequest(grid: Option<DataGrid>, workspace: Option<Project>): Option<Result<seq<RunParameters>>> {
    if grid.None? || workspace.None? || grid.value.selectedItems == [] then None
    else
      var arr := workspace.value.runParametersArray;
      if arr.None? && ReadsLength(grid.value.selectedItems) then Some(Err(NullReferenceMessage))
      else Some(Ok(SelectRunParameters(grid.value.selectedItems, if arr.Some? then arr.value else [])))
  }

  /** No row maps to a set of an empty array. */
  lemma {:induction false} SelectFromEmpty(selected: seq<Row>)
    ensures SelectRunParameters(selected, []) == []
    decreases |selected|
  {
    if selected != [] {
      SelectFromEmpty(selected[..|selected| - 1]);
    }
  }

  /** Collects the sets for the selected rows; reading the length of a null array throws. */
  method MapWorkspaceSelection(selected: seq<Row>, arr: Option<seq<RunParameters>>) returns (r: Result<seq<RunParameters>>)
    ensures r.Err? <==> arr.None? && ReadsLength(selected)
    ensures r.Err? ==> r.message == NullReferenceMessage
    ensures r.Ok? ==> r.value == SelectRunParameters(selected, if arr.Some? then arr.value else [])
  {
    var chosen: seq<RunParameters> := [];
    for k := 0 to |selected|
      invariant !ReadsLength(selected[..k]) || arr.Some?
      invariant chosen == SelectRunParameters(selected[..k], if arr.Some? then arr.value else [])
    {
      var item := selected[k];
      assert selected[..k + 1][..k] == selected[..k];
      if "Index" in item && item["Index"].IndexCell? {
        var arrayIndex := item["Index"].n - 1;
        if arrayIndex >= 0 {
          if arr.None? {
            assert RowIndex(selected[k]).value >= 1;
            return Err(NullReferenceMessage);
          }
          if arrayIndex < |arr.value| {
            chosen := chosen + [arr.value[arrayIndex]];
          }
        }
      }
    }
    assert selected[..|selected|] == selected;
    if arr.None? {
      SelectFromEmpty(selected);
    }
    r := Ok(chosen);
  }

  // ---------------------------------------------------------------------------
  // Executing the selected sets

  /** How executing the selected sets ends, with the number of sets whose delay completed and that were described. */
  datatype Execution = Completed | Canceled(processed: nat) | Failed(processed: nat, message: string)

  /**
   * How executing `n` sets ends from the `i`-th on: a cancellation after a
   * delay is noticed by the check before the next set (and not at all after
   * the last), a cancellation during a delay ends at once, and a failure to
   * describe a set ends with its message.
   */
  function ExecutionFrom(events: seq<RunEvent>, i: nat, n: nat): (e: Execution)
    requires i <= n
    ensures !e.Completed? ==> i <= e.processed < n
    decreases n - i
  {
    if i == n then Completed
    else match RunEventAt(events, i)
      case Ran => ExecutionFrom(events, i + 1, n)
      case RanThenCanceled => if i + 1 == n then Completed else Canceled(i + 1)
      case CanceledInDelay => Canceled(i)
      case DescribeFailed(m) => Failed(i, m)
  }

  /** The number of the `n` sets that an execution ending in `e` processed. */
  function Processed(e: Execution, n: nat): (count: nat)
    requires e.Completed? || e.processed < n
    ensures count <= n
  {
    if e.Completed? then n else e.processed
  }

  /** The error text shown when executing the sets fails with `message`. */
  function ExecutionFailedText(message: string): (text: string)
    ensures EndsWith(text, message)
  {
    "Error executing runs: " + message
  }

  lemma {:induction false} ExecutionFromOutcome(events: seq<RunEvent>, i: nat, n: nat)
    requires i <= n
    ensures i <= Processed(ExecutionFrom(events, i, n), n) <= n
    ensures forall j :: i <= j < Processed(ExecutionFrom(events, i, n), n) ==>
              RunEventAt(events, j) == Ran || RunEventAt(events, j) == RanThenCanceled
    ensures ExecutionFrom(events, i, n).Failed? ==>
              var e := ExecutionFrom(events, i, n);
              e.processed < n && RunEventAt(events, e.processed) == DescribeFailed(e.message)
    ensures ExecutionFrom(events, i, n).Canceled? ==>
              var k := ExecutionFrom(events, i, n).processed;
              k < n && (RunEventAt(events, k) == CanceledInDelay || (k > i && RunEventAt(events, k - 1) == RanThenCanceled))
    decreases n - i
  {
    if i < n && RunEventAt(events, i) == Ran {
      ExecutionFromOutcome(events, i + 1, n);
    }
  }

  /**
   * Sets are processed in order, never more than were selected; every
   * processed set's delay completed; a run stops at a failure to describe a
   * set, at a cancellation during a delay, or at the check that follows a
   * cancellation after one.
   */
  lemma ExecutionOutcome(events: seq<RunEvent>, n: nat)
    ensures Processed(ExecutionFrom(events, 0, n), n) <= n
    ensures forall j :: 0 <= j < Processed(ExecutionFrom(events, 0, n), n) ==>
              RunEventAt(events, j) == Ran || RunEventAt(events, j) == RanThenCanceled
    ensures ExecutionFrom(events, 0, n).Failed? ==>
              var e := ExecutionFrom(events, 0, n);
              e.processed < n && RunEventAt(events, e.processed) == DescribeFailed(e.message)
    ensures ExecutionFrom(events, 0, n).Canceled? ==>
              var k := ExecutionFrom(events, 0, n).processed;
              k < n && (RunEventAt(events, k) == CanceledInDelay || (k > 0 && RunEventAt(events, k - 1) == RanThenCanceled))
  {
    ExecutionFromOutcome(events, 0, n);
  }

  /** A run with no cancellation and no failure completes every set. */
  lemma {:induction false} UndisturbedRunCompletes(events: seq<RunEvent>, i: nat, n: nat)
    requires i <= n
    requires forall j :: i <= j < n ==> RunEventAt(events, j) == Ran
    ensures ExecutionFrom(events, i, n) == Completed
    decreases n - i
  {
    if i < n {
      UndisturbedRunCompletes(events, i + 1, n);
    }
  }

  // ---------------------------------------------------------------------------
  // The view-model

  class WorkspaceParamsVm {
    var workspaceName: Option<string>
    var workspaceDescription: Option<string>
    var rootDirectory: Option<string>
    var filePath: string
    var isLoading: bool
    var errorMessage: Option<string>
    var parametersDataGrid: Option<DataGrid>
    var canRunSelected: bool
    var selectedRunsText: string
    var reportKeys: seq<Option<string>>
    var runCts: Option<TokenSource>
    var workspace: Option<Project>
    var isRunning: bool
    var canCancel: bool
    var cts: Option<TokenSource>
    /** The sets each execution has processed, in order. */
    ghost var executed: seq<RunParameters>

    /**
     * When there is a grid, the run button is enabled exactly when rows are
     * selected and the selection text describes the selection and the
     * loading flag. This is the object's invariant: the constructor
     * establishes it, and selecting rows, loading a workspace and running
     * the selection each keep it.
     */
    ghost predicate ButtonsMatch()
      reads this`parametersDataGrid, this`canRunSelected, this`selectedRunsText, this`isLoading
    {
      parametersDataGrid.Some? ==>
        var count := |parametersDataGrid.value.selectedItems|;
        canRunSelected == (count > 0) && selectedRunsText == SelectionMessage(count, isLoading)
    }

    /** The second run command is enabled when no run is in progress. */
    function CanRunOperation(): (enabled: bool)
      reads this`isRunning, this`canCancel
      ensures enabled ==> !CanCancelOperation()
      ensures enabled <==> !isRunning
    {
      !isRunning
    }

    /** The second cancel command is enabled while a run is in progress and may still be canceled. */
    function CanCancelOperation(): (enabled: bool)
      reads this`isRunning, this`canCancel
      ensures enabled ==> isRunning
    {
      isRunning && canCancel
    }

    /** What loading a workspace determines. */
    function Shown(): Display
      reads this`workspace, this`workspaceName, this`workspaceDescription, this`rootDirectory,
            this`reportKeys, this`parametersDataGrid
    {
      Display(workspace, workspaceName, workspaceDescription, rootDirectory, reportKeys, parametersDataGrid)
    }

    constructor ()
      ensures ButtonsMatch()
      ensures !isLoading && !canRunSelected && selectedRunsText == "No runs selected"
      ensures Shown() == Display(None, Some(""), Some(""), Some(""), [], None)
      ensures filePath == "" && errorMessage.None? && runCts.None? && cts.None? && executed == []
      ensures CanRunOperation() && !CanCancelOperation()
    {
      workspaceName, workspaceDescription, rootDirectory := Some(""), Some(""), Some("");
      filePath := "";
      isLoading := false;
      errorMessage := None;
      parametersDataGrid := None;
      canRunSelected := false;
      selectedRunsText := "No runs selected";
      reportKeys := [];
      runCts := None;
      workspace := None;
      isRunning, canCancel := false, false;
      cts := None;
      executed := [];
    }

    // -------------------------------------------------------------------------
    // Selection and button states

    /** Enables the run button for a non-empty selection and describes it. */
    method UpdateButtonStates(selectedCount: nat)
      modifies this`canRunSelected, this`selectedRunsText
      ensures canRunSelected <==> selectedCount > 0
      ensures selectedRunsText == SelectionMessage(selectedCount, isLoading)
    {
      canRunSelected := selectedCount > 0;
      selectedRunsText := SelectionMessage(selectedCount, isLoading);
    }

    /** Recomputes the button states from the grid's selection, when there is a grid. */
    method OnIsLoadingChanged()
      modifies this`canRunSelected, this`selectedRunsText
      ensures ButtonsMatch()
      ensures parametersDataGrid.None? ==> canRunSelected == old(canRunSelected) && selectedRunsText == old(selectedRunsText)
    {
      if parametersDataGrid.Some? {
        UpdateButtonStates(|parametersDataGrid.value.selectedItems|);
      }
    }

    /** The `IsLoading` setter: a change of value recomputes the button states. */
    method SetIsLoading(value: bool)
      modifies this`isLoading, this`canRunSelected, this`selectedRunsText
      ensures isLoading == value
      ensures old(isLoading) != value ==> ButtonsMatch()
      ensures old(isLoading) == value ==> canRunSelected == old(canRunSelected) && selectedRunsText == old(selectedRunsText)
      ensures parametersDataGrid.None? ==> canRunSelected == old(canRunSelected) && selectedRunsText == old(selectedRunsText)
    {
      if isLoading != value {
        isLoading := value;
        OnIsLoadingChanged();
      }
    }

    /** The grid's selection changed: the grid records it and the button states follow it. */
    method SelectionChanged(selected: seq<Row>)
      modifies this`parametersDataGrid, this`canRunSelected, this`selectedRunsText
      ensures ButtonsMatch() || old(parametersDataGrid).None?
      ensures old(ButtonsMatch()) ==> ButtonsMatch()
      ensures old(parametersDataGrid).None? ==> unchanged(this)
      ensures old(parametersDataGrid).Some? ==> parametersDataGrid == Some(old(parametersDataGrid).value.(selectedItems := selected))
    {
      if parametersDataGrid.Some? {
        parametersDataGrid := Some(parametersDataGrid.value.(selectedItems := selected));
        UpdateButtonStates(|selected|);
      }
    }

    // -------------------------------------------------------------------------
    // Loading

    /**
     * Reads a workspace file. It never throws: on failure the error text
     * names the exception, and what had been stored before the exception
     * stays stored. The button states follow the grid afterwards.
     */
    method LoadWorkspaceAsync(path: string, load: FileLoad)
      modifies this`isLoading, this`canRunSelected, this`selectedRunsText, this`errorMessage, this`filePath,
               this`workspace, this`workspaceName, this`workspaceDescription, this`rootDirectory,
               this`reportKeys, this`parametersDataGrid
      ensures !isLoading && filePath == path
      ensures errorMessage == if LoadError(load).Some? then Some(LoadFailedText(LoadError(load).value)) else None
      ensures Shown() == LoadShown(old(Shown()), load)
      ensures ButtonsMatch()
    {
      SetIsLoading(true);
      errorMessage := None;
      filePath := path;
      var thrown := ReadAndShow(load);
      if thrown.Some? {
        errorMessage := Some(LoadFailedText(thrown.value));
      }
      SetIsLoading(false);
    }

    /** The loader's `try` block: reads and decodes the file and shows the workspace; returns the escaping exception's message. */
    method ReadAndShow(load: FileLoad) returns (thrown: Option<string>)
      modifies this`workspace, this`workspaceName, this`workspaceDescription, this`rootDirectory,
               this`reportKeys, this`parametersDataGrid
      ensures thrown == LoadError(load)
      ensures Shown() == LoadShown(old(Shown()), load)
    {
      match load {
        case ReadFailed(m) =>
          thrown := Some(m);
        case DecodeFailed(m) =>
          thrown := Some(m);
        case Decoded(_, conversion) =>
          thrown := LoadWorkspaceData(conversion);
      }
    }

    /** Converts the DTO, stores the result, then shows its texts, report keys and grid. */
    method LoadWorkspaceData(conversion: Conversion) returns (thrown: Option<string>)
      modifies this`workspace, this`workspaceName, this`workspaceDescription, this`rootDirectory,
               this`reportKeys, this`parametersDataGrid
      ensures thrown == DataError(conversion)
      ensures Shown() == DataShown(old(Shown()), conversion)
    {
      match conversion {
        case ConversionThrows(m) =>
          thrown := Some(m);
        case ConversionReturns(None) =>
          workspace := None;
          thrown := Some(NullReferenceMessage);
        case ConversionReturns(Some(w)) =>
          workspace := Some(w);
          workspaceName, workspaceDescription, rootDirectory := w.name, w.description, w.rootDirectory;
          thrown := LoadReportKeys(w.reportNames);
          if thrown.None? {
            thrown := CreateParametersDataGrid(w);
          }
      }
    }

    /** Clears the report keys and copies every key, null and blank ones included; null keys throw after the clear. */
    method LoadReportKeys(keys: Option<seq<Option<string>>>) returns (thrown: Option<string>)
      modifies this`reportKeys
      ensures thrown.Some? <==> keys.None?
      ensures thrown.Some? ==> thrown.value == NullReferenceMessage
      ensures reportKeys == if keys.Some? then keys.value else []
    {
      reportKeys := [];
      if keys.None? {
        return Some(NullReferenceMessage);
      }
      var ks := keys.value;
      for i := 0 to |ks|
        invariant reportKeys == ks[..i]
      {
        reportKeys := reportKeys + [ks[i]];
      }
      thrown := None;
    }

    /**
     * Builds the grid of workspace `w` and installs it; nothing is installed
     * when building it throws.
     */
    method CreateParametersDataGrid(w: Project) returns (thrown: Option<string>)
      modifies this`parametersDataGrid
      ensures thrown == WorkspaceGridError(w)
      ensures thrown.None? ==> parametersDataGrid == Some(WorkspaceGrid(w))
      ensures thrown.Some? ==> parametersDataGrid == old(parametersDataGrid)
    {
      if w.parameterKeys.None? {
        return Some(ArgumentNullMessage(ValueCannotBeNull, "source"));
      }
      var keys := w.parameterKeys.value;
      var keyColumns := BuildKeyColumns(keys);
      if w.runParametersArray.None? {
        return Some(NullReferenceMessage);
      }
      var rows := BuildWorkspaceRows(w.runParametersArray.value, keys);
      if rows.Err? {
        return Some(rows.message);
      }
      parametersDataGrid := Some(DataGrid([RunNumberColumn] + keyColumns, rows.value, []));
      thrown := None;
    }

    // -------------------------------------------------------------------------
    // Running the selected sets

    /** The run button while a run is in progress: requests cancellation of the run, if there is one. */
    method CancelRun()
      modifies this`runCts
      ensures old(runCts).None? ==> runCts.None?
      ensures old(runCts).Some? ==> runCts == Some(old(runCts).value.(cancelRequested := true))
    {
      if runCts.Some? {
        runCts := Some(runCts.value.(cancelRequested := true));
      }
    }

    /**
     * The run button: while loading it only requests cancellation; otherwise
     * it runs the sets the selected rows stand for, if any. Returns the
     * message of the exception that escapes mapping the selection.
     */
    method RunSelected(events: seq<RunEvent>) returns (thrown: Option<string>)
      requires ButtonsMatch()
      modifies this`runCts, this`isLoading, this`canRunSelected, this`selectedRunsText, this`errorMessage,
               this`executed
      ensures thrown.Some? <==> !old(isLoading) && RunRequest(parametersDataGrid, workspace) == Some(Err(NullReferenceMessage))
      ensures thrown.Some? ==> thrown.value == NullReferenceMessage
      ensures old(isLoading) ==>
                && isLoading && executed == old(executed) && errorMessage == old(errorMessage)
                && (old(runCts).None? ==> runCts.None?)
                && (old(runCts).Some? ==> runCts == Some(old(runCts).value.(cancelRequested := true)))
      ensures !old(isLoading) && (RunRequest(parametersDataGrid, workspace).None? || thrown.Some?) ==>
                && !isLoading && runCts == old(runCts) && executed == old(executed) && errorMessage == old(errorMessage)
      ensures !old(isLoading) && RunRequest(parametersDataGrid, workspace).Some? && thrown.None? ==>
                var sets := RunRequest(parametersDataGrid, workspace).value.value;
                var e := ExecutionFrom(events, 0, |sets|);
                && !isLoading && runCts.None?
                && executed == old(executed) + sets[..Processed(e, |sets|)]
                && errorMessage == (if e.Failed? then Some(ExecutionFailedText(e.message)) else old(errorMessage))
      ensures ButtonsMatch()
    {
      thrown := None;
      if isLoading {
        CancelRun();
        return;
      }
      if parametersDataGrid.None? || workspace.None? {
        return;
      }
      var selectedItems := parametersDataGrid.value.selectedItems;
      if selectedItems == [] {
        return;
      }
      var chosen := MapWorkspaceSelection(selectedItems, workspace.value.runParametersArray);
      if chosen.Err? {
        return Some(chosen.message);
      }
      runCts := Some(FreshTokenSource);
      ExecuteRunParameters(chosen.value, events);
    }

    /**
     * Runs the sets in order, checking for cancellation before each one. A
     * cancellation leaves the error message alone; any other failure is
     * reported. Afterwards loading is over, the token source is dropped and
     * the button states follow the selection.
     */
    method ExecuteRunParameters(sets: seq<RunParameters>, events: seq<RunEvent>)
      requires runCts == Some(FreshTokenSource)
      modifies this`isLoading, this`canRunSelected, this`selectedRunsText, this`runCts, this`errorMessage,
               this`executed
      ensures !isLoading && runCts.None? && ButtonsMatch()
      ensures executed == old(executed) + sets[..Processed(ExecutionFrom(events, 0, |sets|), |sets|)]
      ensures errorMessage == if ExecutionFrom(events, 0, |sets|).Failed?
                              then Some(ExecutionFailedText(ExecutionFrom(events, 0, |sets|).message))
                              else old(errorMessage)
    {
      SetIsLoading(true);
      var outcome := RunSets(sets, events);
      if outcome.Failed? {
        errorMessage := Some(ExecutionFailedText(outcome.message));
      }
      SetIsLoading(false);
      runCts := None;
      if parametersDataGrid.Some? {
        UpdateButtonStates(|parametersDataGrid.value.selectedItems|);
      }
    }

    /** The loop of `ExecuteRunParameters`: how it ends, and the sets it processed. */
    method RunSets(sets: seq<RunParameters>, events: seq<RunEvent>) returns (outcome: Execution)
      requires runCts == Some(FreshTokenSource)
      modifies this`runCts, this`executed
      ensures outcome == ExecutionFrom(events, 0, |sets|)
      ensures executed == old(executed) + sets[..Processed(outcome, |sets|)]
    {
      var n := |sets|;
      var i := 0;
      while i < n
        invariant 0 <= i <= n
        invariant runCts == Some(FreshTokenSource) || runCts == Some(TokenSource(true, false))
        invariant !runCts.value.cancelRequested ==> ExecutionFrom(events, 0, n) == ExecutionFrom(events, i, n)
        invariant runCts.value.cancelRequested ==>
                    0 < i && ExecutionFrom(events, 0, n) == (if i == n then Completed else Canceled(i))
        invariant executed == old(executed) + sets[..i]
      {
        if runCts.value.cancelRequested {
          return Canceled(i);
        }
        assert sets[..i + 1] == sets[..i] + [sets[i]];
        match RunEventAt(events, i) {
          case Ran =>
            executed := executed + [sets[i]];
          case RanThenCanceled =>
            executed := executed + [sets[i]];
            CancelRun();
          case CanceledInDelay =>
            CancelRun();
            return Canceled(i);
          case DescribeFailed(m) =>
            return Failed(i, m);
        }
        i := i + 1;
      }
      assert sets[..n] == sets;
      outcome := Completed;
    }

    // -------------------------------------------------------------------------
    // The second run/cancel pair

    /**
     * Raises the run flags, awaits one cancellable delay, and clears the flags
     * and the token source whether or not the delay was canceled.
     */
    method RunOperation(event: DelayEvent)
      modifies this`isRunning, this`canCancel, this`cts
      ensures !isRunning && !canCancel && cts.None?
      ensures CanRunOperation() && !CanCancelOperation()
    {
      isRunning := true;
      canCancel := true;
      cts := Some(FreshTokenSource);
      if event != Elapsed {
        assert CanCancelOperation();
        CancelOperation();
      }
      isRunning := false;
      canCancel := false;
      cts := None;
    }

    /** Requests cancellation of the current operation, if any. */
    method CancelOperation()
      modifies this`cts
      ensures old(cts).None? ==> cts.None?
      ensures old(cts).Some? ==> cts == Some(old(cts).value.(cancelRequested := true))
    {
      if cts.Some? {
        cts := Some(cts.value.(cancelRequested := true));
      }
    }
  }
}
