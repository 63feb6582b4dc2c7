/**
 * The project parameters view-model (ProjectParamsVm): loading a project file,
 * validating it, showing its run-parameter sets in a grid, summarising the
 * selection, generating a report for the selected sets, and the run/cancel
 * command pair whose run loop polls a cancellation flag once per selected row.
 *
 * Awaited delays are not modelled as time: the user's cancellations during a
 * run are an input sequence of `DelayEvent`s, one per iteration. Progress
 * reports are direct field assignments, and each report is also appended to
 * the ghost log `progressLog`, so that the sequence of reports can be stated.
 */
module ProjectParams {
  import opened Wrappers
  import opened Strings
  import opened Domain
  import opened Grid

  // ---------------------------------------------------------------------------
  // Load validation

  /** A project the view-model accepts: it has a non-blank name and at least one run-parameter set. */
  predicate Acceptable(p: Project) {
    !IsNullOrWhiteSpace(p.name) && p.runParametersArray.Some? && |p.runParametersArray.value| > 0
  }

  /**
   * The ways loading a decoded project fails: each validation check that
   * fails, a conversion that throws with its own message, and an accepted
   * project whose grid cannot be built because a key is read from a null set.
   */
  datatype Failure =
    | NullDto | ConversionThrew(thrownMessage: string) | ConversionNull | NameMissing | NoRunParameters
    | UpdateFailed

  /** The outcome of validating a decoded project. */
  datatype Checked = Accepted(project: Project) | Rejected(failure: Failure)

  /** The message of each validation failure. */
  function NullDtoMessage(): string {
    ArgumentNullMessage("Project data cannot be null", "workspaceDto")
  }

  function ConversionFailedMessage(): string {
    "Failed to convert project DTO to domain object"
  }

  function NameRequiredMessage(): string {
    "Workspace name is required"
  }

  function NoRunParametersMessage(): string {
    "Workspace must contain at least one run parameter set"
  }

  /** The message of the invalid-operation exception that wraps an exception thrown while the UI is updated. */
  function UpdateFailedText(inner: string): string {
    "Error updating UI with workspace data: " + inner
  }

  /**
   * The message of the exception raised for a failure: an argument-null
   * exception for a null DTO, an invalid-operation exception for a null
   * conversion or a failed UI update, an invalid-data exception for a blank
   * name or no sets.
   */
  function FailureMessage(f: Failure): string {
    match f
    case NullDto => NullDtoMessage()
    case ConversionThrew(m) => m
    case ConversionNull => ConversionFailedMessage()
    case NameMissing => NameRequiredMessage()
    case NoRunParameters => NoRunParametersMessage()
    case UpdateFailed => UpdateFailedText(NullReferenceMessage)
  }

  /**
   * Validates a decoded DTO and its conversion, in the order the checks run:
   * a null DTO, a conversion that throws or yields null, a blank name, and a
   * null or empty run-parameter array.
   */
  function CheckDto(dtoIsNull: bool, conversion: Conversion): (c: Checked)
    ensures c.Accepted? <==>
              !dtoIsNull && conversion.ConversionReturns? && conversion.result.Some? && Acceptable(conversion.result.value)
    ensures c.Accepted? ==> conversion == ConversionReturns(Some(c.project))
    ensures c.Rejected? ==> c.failure != UpdateFailed
  {
    if dtoIsNull then Rejected(NullDto)
    else match conversion
      case ConversionThrows(m) => Rejected(ConversionThrew(m))
      case ConversionReturns(None) => Rejected(ConversionNull)
      case ConversionReturns(Some(p)) =>
        if IsNullOrWhiteSpace(p.name) then Rejected(NameMissing)
        else if p.runParametersArray.None? || |p.runParametersArray.value| == 0 then Rejected(NoRunParameters)
        else Accepted(p)
  }

  /**
   * The text the loader shows while handling a failure, before rethrowing
   * it, chosen by the exception's kind; a conversion's own exception is
   * reported as unexpected.
   */
  function ReportedFailure(f: Failure): string {
    match f
    case NullDto => "Invalid project data: " + FailureMessage(f)
    case ConversionThrew(m) => "Unexpected error loading project data: " + m
    case ConversionNull => FailureMessage(f)
    case NameMissing => "Project validation failed: " + FailureMessage(f)
    case NoRunParameters => "Project validation failed: " + FailureMessage(f)
    case UpdateFailed => FailureMessage(f)
  }

  /**
   * A failed UI update raises the wrapped null-reference message, and its
   * handler shows that message unchanged.
   */
  lemma UpdateFailedMessage()
    ensures FailureMessage(UpdateFailed) == UpdateFailedText(NullReferenceMessage)
    ensures ReportedFailure(UpdateFailed) == FailureMessage(UpdateFailed)
  {
  }

  /** The text shown for a failure ends with the failure's own message. */
  lemma ReportedFailureKeepsMessage(f: Failure)
    ensures EndsWith(ReportedFailure(f), FailureMessage(f))
  {
  }

  /**
   * The message of the exception that building the grid of project `p`
   * throws: reading a key from a null set.
   */
  function ProjectGridError(p: Project): Option<string>
    requires p.runParametersArray.Some?
  {
    if SetsPresent(p.runParametersArray.value, KeyList(p.parameterKeys)) then None else Some(NullReferenceMessage)
  }

  /** How loading a decoded DTO fails, if it does: validation rejects it, or showing the accepted project throws. */
  function DtoFailure(dtoIsNull: bool, conversion: Conversion): Option<Failure> {
    match CheckDto(dtoIsNull, conversion)
    case Rejected(f) => Some(f)
    case Accepted(p) => if ProjectGridError(p).Some? then Some(UpdateFailed) else None
  }

  /** The message of the exception that escapes loading a file, if any. */
  function LoadError(load: FileLoad): Option<string> {
    match load
    case ReadFailed(m) => Some(m)
    case DecodeFailed(m) => Some(m)
    case Decoded(dtoIsNull, conversion) =>
      match DtoFailure(dtoIsNull, conversion)
      case None => None
      case Some(f) => Some(FailureMessage(f))
  }

  /** The project a successful load shows. */
  function Loaded(load: FileLoad): Project
    requires LoadError(load).None?
    ensures Loaded(load).runParametersArray.Some?
  {
    CheckDto(load.dtoIsNull, load.conversion).project
  }

  /** The checks run in order: the first one that fails decides the failure. */
  lemma RejectionOrder(p: Project, conversion: Conversion)
    ensures CheckDto(true, conversion) == Rejected(NullDto)
    ensures CheckDto(false, ConversionReturns(None)) == Rejected(ConversionNull)
    ensures IsNullOrWhiteSpace(p.name) ==> CheckDto(false, ConversionReturns(Some(p))) == Rejected(NameMissing)
    ensures !IsNullOrWhiteSpace(p.name) && !Acceptable(p) ==>
              CheckDto(false, ConversionReturns(Some(p))) == Rejected(NoRunParameters)
  {
  }

  /**
   * The four validation checks and the UI update have different messages, so
   * the message says which of them failed.
   */
  lemma RejectionMessagesDistinct(f: Failure, g: Failure)
    requires !f.ConversionThrew? && !g.ConversionThrew? && f != g
    ensures FailureMessage(f) != FailureMessage(g)
  {
    assert |NullDtoMessage()| == 54 && |ConversionFailedMessage()| == 46;
    assert |NameRequiredMessage()| == 26 && |NoRunParametersMessage()| == 53;
    assert |UpdateFailedText(NullReferenceMessage)| == 92;
  }

  // ---------------------------------------------------------------------------
  // Report names

  /** The report names with null and blank entries dropped, in their original order. */
  function NonBlank(names: seq<Option<string>>): (keys: seq<string>)
    ensures |keys| <= |names|
    ensures forall k :: k in keys ==> Some(k) in names && !IsNullOrWhiteSpace(Some(k))
    decreases |names|
  {
    if names == [] then []
    else
      var last := names[|names| - 1];
      NonBlank(names[..|names| - 1]) + (if IsNullOrWhiteSpace(last) then [] else [last.value])
  }

  /** Filtering a list made of two parts filters each part, in order. */
  lemma {:induction false} NonBlankAppend(a: seq<Option<string>>, b: seq<Option<string>>)
    ensures NonBlank(a + b) == NonBlank(a) + NonBlank(b)
    decreases |b|
  {
    if b == [] {
      assert a + b == a;
    } else {
      var b' := b[..|b| - 1];
      assert (a + b)[..|a + b| - 1] == a + b';
      NonBlankAppend(a, b');
    }
  }

  /** No non-blank name is lost. */
  lemma {:induction false} NonBlankKeeps(names: seq<Option<string>>, k: string)
    requires Some(k) in names && !IsNullOrWhiteSpace(Some(k))
    ensures k in NonBlank(names)
    decreases |names|
  {
    if names[|names| - 1] != Some(k) {
      var init := names[..|names| - 1];
      assert names == init + [names[|names| - 1]];
      NonBlankKeeps(init, k);
    }
  }

  /** A list without null or blank names is kept whole, in order. */
  lemma {:induction false} NonBlankClean(names: seq<Option<string>>)
    requires forall i :: 0 <= i < |names| ==> !IsNullOrWhiteSpace(names[i])
    ensures |NonBlank(names)| == |names|
    ensures forall i :: 0 <= i < |names| ==> Some(NonBlank(names)[i]) == names[i]
    decreases |names|
  {
    if names != [] {
      var init := names[..|names| - 1];
      NonBlankClean(init);
      var last := names[|names| - 1];
      assert NonBlank(names) == NonBlank(init) + [last.value];
      forall i | 0 <= i < |names| ensures Some(NonBlank(names)[i]) == names[i] {
        if i < |init| {
          assert names[i] == init[i];
        }
      }
    }
  }

  // ---------------------------------------------------------------------------
  // Progress

  /** A progress report: the current step, the number of steps, and a message. */
  datatype ProgressReport = ProgressReport(current: int, total: int, message: string)

  /** The text that stands for a row's "Index" entry in a progress message, "???" when it has none. */
  function RunLabel(row: Row): string {
    if "Index" !in row then "???"
    else match row["Index"]
      case IndexCell(n) => IntToString(n)
      case TextCell(t) => t
      case NullCell => ""
      case ParamsCell(_) => ""
  }

  /** The report made when the run reaches the `current`-th of `total` selected rows. */
  function RunReport(current: nat, total: nat, row: Row): ProgressReport {
    ProgressReport(current, total, "Executing Run " + RunLabel(row))
  }

  /** The run message while the `current`-th of `total` selected rows runs. */
  function ExecutingMessage(run: string, current: nat, total: nat): string {
    "Executing Run " + run + " (" + NatToString(current) + " of " + NatToString(total) + ")"
  }

  /** The reports of a run that started the given rows, out of `total`: one per row, counting from 1. */
  function RunReports(rows: seq<Row>, total: nat): (rs: seq<ProgressReport>)
    ensures |rs| == |rows|
    decreases |rows|
  {
    if rows == [] then []
    else RunReports(rows[..|rows| - 1], total) + [RunReport(|rows|, total, rows[|rows| - 1])]
  }

  /**
   * The `k`-th report of a run names the `k`-th started row and counts it as
   * step `k + 1`; when no more rows start than were selected, every step lies
   * between 1 and the total.
   */
  lemma {:induction false} RunReportsAt(rows: seq<Row>, total: nat, k: nat)
    requires k < |rows|
    ensures RunReports(rows, total)[k] == RunReport(k + 1, total, rows[k])
    ensures |rows| <= total ==> 1 <= RunReports(rows, total)[k].current <= RunReports(rows, total)[k].total
    decreases |rows|
  {
    if k < |rows| - 1 {
      RunReportsAt(rows[..|rows| - 1], total, k);
    }
  }

  /** Starting one more row appends that row's report. */
  lemma RunReportsExtend(rows: seq<Row>, total: nat, i: nat)
    requires i < |rows|
    ensures rows[..i + 1] == rows[..i] + [rows[i]]
    ensures RunReports(rows[..i + 1], total) == RunReports(rows[..i], total) + [RunReport(i + 1, total, rows[i])]
  {
    assert rows[..i + 1][..i] == rows[..i];
  }

  /** The report made when report generation reaches the `current`-th of `total` sets. */
  function ProcessingReport(current: nat, total: nat): ProgressReport {
    ProgressReport(current, total, "Processing parameter set " + NatToString(current) + " of " + NatToString(total))
  }

  /** The first `n` reports of generating a report for `total` sets: one per set, counting from 1. */
  function ReportProgress(n: nat, total: nat): (rs: seq<ProgressReport>)
    ensures |rs| == n
  {
    if n == 0 then [] else ReportProgress(n - 1, total) + [ProcessingReport(n, total)]
  }

  /** The `k`-th report of report generation counts set `k + 1` of the total, which lies between 1 and the total. */
  lemma {:induction false} ReportProgressAt(n: nat, total: nat, k: nat)
    requires k < n <= total
    ensures ReportProgress(n, total)[k] == ProcessingReport(k + 1, total)
    ensures 1 <= ReportProgress(n, total)[k].current <= ReportProgress(n, total)[k].total
  {
    if k < n - 1 {
      ReportProgressAt(n - 1, total, k);
    }
  }

  // ---------------------------------------------------------------------------
  // Cancellation points of a run

  /** The first iteration, from `i` on, in which the user cancels; `n` if there is none before `n`. */
  function FirstCancelFrom(events: seq<DelayEvent>, i: nat, n: nat): (k: nat)
    requires i <= n
    ensures i <= k <= n
    decreases n - i
  {
    if i == n then n
    else if DelayEventAt(events, i) != Elapsed then i
    else FirstCancelFrom(events, i + 1, n)
  }

  /** The first of the `n` iterations in which the user cancels, `n` if none. */
  function FirstCancel(events: seq<DelayEvent>, n: nat): (k: nat)
    ensures k <= n
  {
    FirstCancelFrom(events, 0, n)
  }

  lemma {:induction false} FirstCancelFromIsFirst(events: seq<DelayEvent>, i: nat, n: nat)
    requires i <= n
    ensures forall j :: i <= j < FirstCancelFrom(events, i, n) ==> DelayEventAt(events, j) == Elapsed
    ensures FirstCancelFrom(events, i, n) < n ==> DelayEventAt(events, FirstCancelFrom(events, i, n)) != Elapsed
    decreases n - i
  {
    if i < n && DelayEventAt(events, i) == Elapsed {
      FirstCancelFromIsFirst(events, i + 1, n);
    }
  }

  /** `FirstCancel` is the first iteration whose delay sees a cancellation: every earlier one elapses. */
  lemma FirstCancelIsFirst(events: seq<DelayEvent>, n: nat)
    ensures forall j :: 0 <= j < FirstCancel(events, n) ==> DelayEventAt(events, j) == Elapsed
    ensures FirstCancel(events, n) < n ==> DelayEventAt(events, FirstCancel(events, n)) != Elapsed
  {
    FirstCancelFromIsFirst(events, 0, n);
  }

  /** The number of rows a run over `n` rows starts: up to and including the one during which it is canceled. */
  function Started(events: seq<DelayEvent>, n: nat): (s: nat)
    ensures s <= n
  {
    if FirstCancel(events, n) < n then FirstCancel(events, n) + 1 else n
  }

  /** The message a run over `n` selected rows ends with. */
  function RunOutcome(events: seq<DelayEvent>, n: nat): string {
    if FirstCancel(events, n) < n then "Operation canceled" else "Finished"
  }

  /**
   * A run starts every selected row unless the user cancels, and then it
   * stops after the row during which the cancellation came; it reports
   * "Finished" exactly when no delay saw a cancellation.
   */
  lemma RunOutcomeFinished(events: seq<DelayEvent>, n: nat)
    ensures RunOutcome(events, n) == "Finished" <==> forall j :: 0 <= j < n ==> DelayEventAt(events, j) == Elapsed
    ensures RunOutcome(events, n) == "Finished" || RunOutcome(events, n) == "Operation canceled"
    ensures Started(events, n) == n || (Started(events, n) > 0 && DelayEventAt(events, Started(events, n) - 1) != Elapsed)
    ensures RunOutcome(events, n) == "Finished" ==> Started(events, n) == n
  {
    FirstCancelIsFirst(events, n);
  }

  // ---------------------------------------------------------------------------
  // The view-model

  /** The part of the view-model's state that loading a project sets. */
  datatype Display = Display(
    workspace: Option<Project>,
    projectName: string,
    projectDescription: string,
    rootDirectory: string,
    reportKeys: seq<string>,
    grid: Option<DataGrid>,
    handlersAttached: bool)

  /** The text a null string is shown as. */
  function OrEmpty(s: Option<string>): string {
    if s.Some? then s.value else ""
  }

  /** The grid of a project: its key columns, one row per set, nothing selected. */
  function ProjectGrid(p: Project): DataGrid
    requires p.runParametersArray.Some?
  {
    DataGrid(KeyColumns(KeyList(p.parameterKeys)), ProjectRows(p.runParametersArray.value, KeyList(p.parameterKeys)), [])
  }

  /**
   * The grid of a project: one column per parameter key in ascending order;
   * one row per set, in array order, whose "Index" is its 1-based position
   * and whose "RunParams" is the set itself, unless a key has that name;
   * every column's binding is an entry of every row.
   */
  lemma ProjectGridShape(p: Project)
    requires p.runParametersArray.Some?
    ensures var g := ProjectGrid(p);
            && IsKeyColumns(g.columns, KeyList(p.parameterKeys))
            && |g.rows| == |p.runParametersArray.value|
            && g.selectedItems == []
    ensures var g := ProjectGrid(p);
            forall i :: 0 <= i < |g.rows| && "Index" !in KeyList(p.parameterKeys) ==> g.rows[i]["Index"] == IndexCell(i + 1)
    ensures var g := ProjectGrid(p);
            forall i :: 0 <= i < |g.rows| && "RunParams" !in KeyList(p.parameterKeys) ==>
              g.rows[i]["RunParams"] == ParamsCell(p.runParametersArray.value[i])
    ensures var g := ProjectGrid(p);
            forall i, c :: 0 <= i < |g.rows| && c in g.columns ==> c.binding in g.rows[i]
  {
    var keys := KeyList(p.parameterKeys);
    var arr := p.runParametersArray.value;
    var g := ProjectGrid(p);
    KeyColumnsShowKeys(keys);
    forall i | 0 <= i < |g.rows| ensures "Index" in g.rows[i] && "RunParams" in g.rows[i] {
      assert g.rows[i] == ProjectRow(i, arr[i], keys);
    }
    forall i, c | 0 <= i < |g.rows| && c in g.columns ensures c.binding in g.rows[i] {
      ProjectColumnsBound(g.columns, keys, i, arr[i]);
    }
  }

  /**
   * What the view-model shows once project `p` is loaded: the project, its
   * texts (a null one as ""), its non-blank report names, and its grid with
   * the grid's handlers attached.
   */
  function ProjectDisplay(p: Project): Display
    requires p.runParametersArray.Some?
  {
    Display(Some(p), OrEmpty(p.name), OrEmpty(p.description), OrEmpty(p.rootDirectory),
            NonBlank(if p.reportNames.Some? then p.reportNames.value else []), Some(ProjectGrid(p)), true)
  }

  /**
   * What is shown after accepted project `p` is stored, from `s`: the project,
   * its texts and its report names replace those of `s`; the grid and its
   * handlers are replaced only when the grid can be built.
   */
  function ProjectShown(s: Display, p: Project): Display
    requires p.runParametersArray.Some?
  {
    if ProjectGridError(p).None? then ProjectDisplay(p)
    else ProjectDisplay(p).(grid := s.grid, handlersAttached := s.handlersAttached)
  }

  /** What is shown after loading a decoded DTO, from `s`: nothing changes unless validation accepts it. */
  function DtoShown(s: Display, dtoIsNull: bool, conversion: Conversion): Display {
    match CheckDto(dtoIsNull, conversion)
    case Rejected(_) => s
    case Accepted(p) => ProjectShown(s, p)
  }

  /** What is shown after loading a file, from `s`. */
  function LoadShown(s: Display, load: FileLoad): Display {
    match load
    case ReadFailed(_) => s
    case DecodeFailed(_) => s
    case Decoded(dtoIsNull, conversion) => DtoShown(s, dtoIsNull, conversion)
  }

  /**
   * A load succeeds exactly when the file decodes to a non-null DTO that
   * converts to an acceptable project whose grid reads no key from a null
   * set; then that project is shown in full.
   */
  lemma LoadSucceeds(s: Display, load: FileLoad)
    ensures LoadError(load).None? <==>
              && load.Decoded? && !load.dtoIsNull
              && load.conversion.ConversionReturns? && load.conversion.result.Some?
              && Acceptable(load.conversion.result.value)
              && SetsPresent(load.conversion.result.value.runParametersArray.value,
                             KeyList(load.conversion.result.value.parameterKeys))
    ensures LoadError(load).None? ==> LoadShown(s, load) == ProjectDisplay(load.conversion.result.value)
  {
    if load.Decoded? {
    }
  }

  /**
   * A failed load never replaces the grid or its handlers. A file that cannot
   * be read, decoded or validated changes nothing shown; a project that is
   * accepted but whose grid cannot be built is stored with its texts and
   * report names, and the load fails with the UI-update error.
   */
  lemma FailedLoadKeepsGrid(s: Display, load: FileLoad)
    requires LoadError(load).Some?
    ensures LoadShown(s, load).grid == s.grid && LoadShown(s, load).handlersAttached == s.handlersAttached
    ensures !load.Decoded? || CheckDto(load.dtoIsNull, load.conversion).Rejected? ==> LoadShown(s, load) == s
    ensures load.Decoded? && CheckDto(load.dtoIsNull, load.conversion).Accepted? ==>
              var p := CheckDto(load.dtoIsNull, load.conversion).project;
              && LoadShown(s, load) == ProjectDisplay(p).(grid := s.grid, handlersAttached := s.handlersAttached)
              && LoadError(load) == Some(FailureMessage(UpdateFailed))
  {
    match load {
      case ReadFailed(_) =>
      case DecodeFailed(_) =>
      case Decoded(dtoIsNull, conversion) =>
        var checked := CheckDto(dtoIsNull, conversion);
        if checked.Accepted? {
          var p := checked.project;
          assert DtoFailure(dtoIsNull, conversion) == Some(UpdateFailed);
          assert LoadShown(s, load) == ProjectShown(s, p);
        }
    }
  }

  /** The error a run reports when there is no grid to take the selection from. */
  function FailedMessage(): string {
    "Operation failed"
  }

  function NoItemsMessage(): string {
    "Error during operation: No items selected for processing"
  }

  /** The message of the exception that canceling a disposed token source throws. */
  const DisposedTokenSourceMessage := "The CancellationTokenSource has been disposed."

  class ProjectParamsVm {
    var disposed: bool
    var projectName: string
    var projectDescription: string
    var rootDirectory: string
    var filePath: string
    var isLoading: bool
    var errorMessage: Option<string>
    var parametersDataGrid: Option<DataGrid>
    /** Whether the selection-changed and mouse-down handlers are attached to the current grid. */
    var handlersAttached: bool
    var canRunSelected: bool
    var runMessage: string
    var selectedCount: int
    var isRunning: bool
    var canCancel: bool
    var reportKeys: seq<string>
    var progressValue: int
    var progressMaximum: int
    var progressMessage: string
    var cts: Option<TokenSource>
    var workspace: Option<Project>
    /** Every progress report made so far. */
    ghost var progressLog: seq<ProgressReport>
    /** The selected rows each run has started, in order. */
    ghost var startedRuns: seq<Row>

    ghost predicate Valid()
      reads this`workspace, this`handlersAttached, this`parametersDataGrid, this`cts, this`disposed
    {
      && (workspace.Some? ==> workspace.value.runParametersArray.Some?)
      && (handlersAttached ==> parametersDataGrid.Some?)
      && (cts.Some? && cts.value.disposed ==> disposed)
    }

    /** The run command is enabled when no run is in progress and some rows are selected. */
    function CanRunOperation(): (enabled: bool)
      reads this`isRunning, this`selectedCount, this`canCancel
      ensures enabled ==> !CanCancelOperation()
      ensures enabled <==> !isRunning && selectedCount > 0
    {
      !isRunning && selectedCount > 0
    }

    /** The cancel command is enabled while a run is in progress and may still be canceled. */
    function CanCancelOperation(): (enabled: bool)
      reads this`isRunning, this`canCancel
      ensures enabled ==> isRunning
    {
      isRunning && canCancel
    }

    constructor ()
      ensures Valid()
      ensures !disposed && !isLoading && !isRunning && !canCancel && !canRunSelected
      ensures projectName == "" && projectDescription == "" && rootDirectory == "" && filePath == ""
      ensures errorMessage.None? && parametersDataGrid.None? && workspace.None? && cts.None? && !handlersAttached
      ensures runMessage == "No runs selected" && selectedCount == 0 && reportKeys == []
      ensures progressValue == 0 && progressMaximum == 0 && progressMessage == ""
      ensures !CanRunOperation() && !CanCancelOperation()
    {
      disposed := false;
      projectName, projectDescription, rootDirectory, filePath := "", "", "", "";
      isLoading := false;
      errorMessage := None;
      parametersDataGrid := None;
      handlersAttached := false;
      runMessage := "No runs selected";
      selectedCount := 0;
      canCancel := false;
      reportKeys := [];
      progressValue, progressMaximum, progressMessage := 0, 0, "";
      cts := None;
      workspace := None;
      progressLog, startedRuns := [], [];
      canRunSelected := false;
      isRunning := false;
    }

    // -------------------------------------------------------------------------
    // Loading

    /**
     * Reads a project file. It never throws: on failure the error text names
     * the escaping exception; on success the error is cleared. What is shown
     * is `LoadShown` of what was shown before.
     */
    method LoadWorkspaceAsync(path: string, load: FileLoad)
      requires Valid()
      modifies this`isLoading, this`filePath, this`errorMessage, this`workspace, this`projectName,
               this`projectDescription, this`rootDirectory, this`reportKeys, this`parametersDataGrid,
               this`handlersAttached
      ensures Valid()
      ensures !isLoading && filePath == path
      ensures errorMessage == if LoadError(load).Some? then Some(LoadFailedText(LoadError(load).value)) else None
      ensures Shown() == LoadShown(old(Shown()), load)
    {
      ghost var shown0 := Shown();
      BeginLoad(path);
      var thrown := ReadAndLoad(load);
      ghost var shown1 := Shown();
      EndLoad(thrown);
      assert Shown() == shown1;
    }

    /** The start of a load: the loading flag is raised, the error cleared and the path recorded. */
    method BeginLoad(path: string)
      modifies this`isLoading, this`errorMessage, this`filePath
      ensures isLoading && errorMessage.None? && filePath == path
      ensures Shown() == old(Shown()) && (Valid() <==> old(Valid()))
    {
      isLoading := true;
      errorMessage := None;
      filePath := path;
    }

    /** The end of a load: an escaping exception replaces the error text, and the loading flag is cleared. */
    method EndLoad(thrown: Option<string>)
      modifies this`isLoading, this`errorMessage
      ensures !isLoading
      ensures errorMessage == if thrown.Some? then Some(LoadFailedText(thrown.value)) else old(errorMessage)
      ensures Shown() == old(Shown()) && (Valid() <==> old(Valid()))
    {
      if thrown.Some? {
        errorMessage := Some(LoadFailedText(thrown.value));
      }
      isLoading := false;
    }

    /**
     * The body of the loader's `try` block: reads and decodes the file, then
     * validates and shows the project. Returns the message of the exception
     * that escapes it.
     */
    method ReadAndLoad(load: FileLoad) returns (thrown: Option<string>)
      requires Valid()
      modifies this`errorMessage, this`workspace, this`projectName, this`projectDescription,
               this`rootDirectory, this`reportKeys, this`parametersDataGrid, this`handlersAttached
      ensures Valid()
      ensures thrown == LoadError(load)
      ensures thrown.None? ==> errorMessage == old(errorMessage)
      ensures Shown() == LoadShown(old(Shown()), load)
    {
      match load {
        case ReadFailed(m) =>
          thrown := Some(m);
        case DecodeFailed(m) =>
          thrown := Some(m);
        case Decoded(dtoIsNull, conversion) =>
          thrown := LoadProjectDto(dtoIsNull, conversion);
      }
    }

    /** What loading a project determines: the project, its texts, its report keys and its grid. */
    function Shown(): Display
      reads this`workspace, this`projectName, this`projectDescription, this`rootDirectory, this`reportKeys,
            this`parametersDataGrid, this`handlersAttached
    {
      Display(workspace, projectName, projectDescription, rootDirectory, reportKeys, parametersDataGrid, handlersAttached)
    }

    /**
     * Validates a decoded project and shows it; returns the message of the
     * exception it rethrows, after its handler has set the error text.
     */
    method LoadProjectDto(dtoIsNull: bool, conversion: Conversion) returns (thrown: Option<string>)
      requires Valid()
      modifies this`errorMessage, this`workspace, this`projectName, this`projectDescription,
               this`rootDirectory, this`reportKeys, this`parametersDataGrid, this`handlersAttached
      ensures Valid()
      ensures thrown.None? <==> DtoFailure(dtoIsNull, conversion).None?
      ensures thrown.Some? ==>
                && thrown.value == FailureMessage(DtoFailure(dtoIsNull, conversion).value)
                && errorMessage == Some(ReportedFailure(DtoFailure(dtoIsNull, conversion).value))
      ensures thrown.None? ==> errorMessage == old(errorMessage)
      ensures Shown() == DtoShown(old(Shown()), dtoIsNull, conversion)
    {
      var checked := CheckDto(dtoIsNull, conversion);
      if checked.Rejected? {
        assert DtoFailure(dtoIsNull, conversion) == Some(checked.failure);
        ReportFailure(checked.failure);
        thrown := Some(FailureMessage(checked.failure));
      } else {
        assert DtoFailure(dtoIsNull, conversion) == (if ProjectGridError(checked.project).Some? then Some(UpdateFailed) else None);
        thrown := ShowAccepted(checked.project);
      }
    }

    /**
     * Shows an accepted project; when the UI update throws, its handler sets
     * the wrapped exception's message as the error text. Returns the message
     * of the exception rethrown.
     */
    method ShowAccepted(p: Project) returns (thrown: Option<string>)
      requires Valid() && Acceptable(p)
      modifies this`errorMessage, this`workspace, this`projectName, this`projectDescription,
               this`rootDirectory, this`reportKeys, this`parametersDataGrid, this`handlersAttached
      ensures Valid()
      ensures thrown.None? <==> ProjectGridError(p).None?
      ensures thrown.Some? ==> thrown.value == FailureMessage(UpdateFailed) && errorMessage == Some(ReportedFailure(UpdateFailed))
      ensures thrown.None? ==> errorMessage == old(errorMessage)
      ensures Shown() == ProjectShown(old(Shown()), p)
    {
      thrown := ShowProject(p);
      if thrown.Some? {
        UpdateFailedMessage();
        ReportFailure(UpdateFailed);
      }
    }

    /** The handler of a rejected project shows the failure's text; nothing that was shown changes. */
    method ReportFailure(f: Failure)
      modifies this`errorMessage
      ensures errorMessage == Some(ReportedFailure(f))
      ensures Shown() == old(Shown()) && (Valid() <==> old(Valid()))
    {
      errorMessage := Some(ReportedFailure(f));
    }

    /**
     * Stores an accepted project, then updates the UI: its texts, report keys
     * and grid. An exception thrown by the update is rethrown wrapped in an
     * invalid-operation exception; returns that exception's message.
     */
    method ShowProject(p: Project) returns (thrown: Option<string>)
      requires p.runParametersArray.Some?
      requires Valid()
      modifies this`workspace, this`projectName, this`projectDescription, this`rootDirectory,
               this`reportKeys, this`parametersDataGrid, this`handlersAttached
      ensures Valid()
      ensures thrown == if ProjectGridError(p).Some? then Some(UpdateFailedText(ProjectGridError(p).value)) else None
      ensures Shown() == ProjectShown(old(Shown()), p)
    {
      StoreProject(p);
      var gridError := CreateParametersDataGrid(p);
      thrown := if gridError.Some? then Some(UpdateFailedText(gridError.value)) else None;
    }

    /** Stores the project and shows its texts and non-blank report names; the grid is left as it was. */
    method StoreProject(p: Project)
      requires p.runParametersArray.Some?
      requires Valid()
      modifies this`workspace, this`projectName, this`projectDescription, this`rootDirectory, this`reportKeys
      ensures Valid()
      ensures Shown() == ProjectDisplay(p).(grid := old(parametersDataGrid), handlersAttached := old(handlersAttached))
    {
      workspace := Some(p);
      projectName, projectDescription, rootDirectory := OrEmpty(p.name), OrEmpty(p.description), OrEmpty(p.rootDirectory);
      LoadReportKeys(p.reportNames);
    }

    /** Clears the report keys and adds each non-blank report name, in order. */
    method LoadReportKeys(names: Option<seq<Option<string>>>)
      modifies this`reportKeys
      ensures reportKeys == NonBlank(if names.Some? then names.value else [])
    {
      reportKeys := [];
      if names.Some? {
        var ns := names.value;
        for i := 0 to |ns|
          invariant reportKeys == NonBlank(ns[..i])
        {
          assert ns[..i + 1][..i] == ns[..i];
          if !IsNullOrWhiteSpace(ns[i]) {
            reportKeys := reportKeys + [ns[i].value];
          }
        }
        assert ns[..|ns|] == ns;
      }
    }

    /**
     * Replaces the grid with one showing the project's sets, with nothing
     * selected, and attaches its handlers; when building its rows throws,
     * nothing is replaced. Returns the message of that exception.
     */
    method CreateParametersDataGrid(p: Project) returns (thrown: Option<string>)
      requires p.runParametersArray.Some?
      modifies this`parametersDataGrid, this`handlersAttached
      ensures thrown == ProjectGridError(p)
      ensures thrown.None? ==> parametersDataGrid == Some(ProjectGrid(p)) && handlersAttached
      ensures thrown.Some? ==> parametersDataGrid == old(parametersDataGrid) && handlersAttached == old(handlersAttached)
    {
      var columns := BuildKeyColumns(KeyList(p.parameterKeys));
      var rows := BuildProjectRows(p.runParametersArray.value, p.parameterKeys);
      if rows.Err? {
        return Some(rows.message);
      }
      parametersDataGrid := Some(DataGrid(columns, rows.value, []));
      handlersAttached := true;
      thrown := None;
    }

    // -------------------------------------------------------------------------
    // Selection

    /** The user changes the grid's selection; the attached handler recounts it and updates the run message. */
    method SelectionChanged(selected: seq<Row>)
      modifies this`parametersDataGrid, this`selectedCount, this`runMessage
      ensures old(parametersDataGrid).None? ==> parametersDataGrid.None?
      ensures old(parametersDataGrid).Some? ==>
                parametersDataGrid == Some(old(parametersDataGrid).value.(selectedItems := selected))
      ensures old(parametersDataGrid).Some? && handlersAttached ==>
                selectedCount == |selected| && runMessage == SelectionMessage(|selected|, isLoading)
      ensures !(old(parametersDataGrid).Some? && handlersAttached) ==>
                selectedCount == old(selectedCount) && runMessage == old(runMessage)
    {
      if parametersDataGrid.Some? {
        parametersDataGrid := Some(parametersDataGrid.value.(selectedItems := selected));
        if handlersAttached {
          selectedCount := |selected|;
          runMessage := SelectionMessage(|selected|, isLoading);
        }
      }
    }

    /** While a run is in progress, a mouse press on the grid is swallowed, so the selection cannot change. */
    function PreviewMouseDownHandled(): (handled: bool)
      reads this`handlersAttached, this`isRunning, this`selectedCount, this`canCancel
      ensures handled ==> !CanRunOperation()
      ensures handled <==> handlersAttached && isRunning
    {
      handlersAttached && isRunning
    }

    // -------------------------------------------------------------------------
    // Reports

    /**
     * Generates a report for the selected rows. Returns the sets passed to the
     * generator, or nothing when there is no grid, no project, no report key or
     * no selection.
     */
    method GenerateReport(reportKey: Option<string>) returns (generated: Option<seq<RunParameters>>)
      requires Valid()
      modifies this`isLoading, this`errorMessage, this`progressValue, this`progressMaximum,
               this`progressMessage, this`progressLog
      ensures generated.None? <==>
                || parametersDataGrid.None? || workspace.None? || IsNullOrEmpty(reportKey)
                || parametersDataGrid.value.selectedItems == []
      ensures generated.Some? ==>
                && generated.value == SelectRunParameters(parametersDataGrid.value.selectedItems,
                                                          workspace.value.runParametersArray.value)
                && progressLog == old(progressLog) + ReportProgress(|generated.value|, |generated.value|)
                && !isLoading && errorMessage.None?
                && progressValue == 0 && progressMaximum == 0 && progressMessage == ""
      ensures generated.None? ==>
                && isLoading == old(isLoading) && errorMessage == old(errorMessage) && progressLog == old(progressLog)
                && progressValue == old(progressValue) && progressMaximum == old(progressMaximum)
                && progressMessage == old(progressMessage)
    {
      if parametersDataGrid.None? || workspace.None? || IsNullOrEmpty(reportKey) {
        return None;
      }
      var selectedItems := parametersDataGrid.value.selectedItems;
      if selectedItems == [] {
        return None;
      }
      var chosen := MapSelection(selectedItems, workspace.value.runParametersArray.value);
      ExecuteReportGeneration(chosen);
      generated := Some(chosen);
    }

    /** Reports progress once per set, then clears the loading flag and the progress fields. */
    method ExecuteReportGeneration(sets: seq<RunParameters>)
      modifies this`isLoading, this`errorMessage, this`progressValue, this`progressMaximum,
               this`progressMessage, this`progressLog
      ensures progressLog == old(progressLog) + ReportProgress(|sets|, |sets|)
      ensures !isLoading && errorMessage.None?
      ensures progressValue == 0 && progressMaximum == 0 && progressMessage == ""
    {
      isLoading := true;
      errorMessage := None;
      var total := |sets|;
      for i := 0 to total
        invariant progressLog == old(progressLog) + ReportProgress(i, total)
        invariant errorMessage.None?
      {
        var report := ProcessingReport(i + 1, total);
        progressValue, progressMaximum, progressMessage := report.current, report.total, report.message;
        progressLog := progressLog + [report];
      }
      isLoading := false;
      progressValue, progressMaximum, progressMessage := 0, 0, "";
    }

    // -------------------------------------------------------------------------
    // Run and cancel

    /**
     * Runs over the selected rows in selection order, checking for cancellation
     * before each row; `events` says when the user cancels. Every exit path
     * clears the run flags, the progress fields and the token source.
     */
    method RunOperation(events: seq<DelayEvent>)
      requires Valid()
      modifies this`isRunning, this`canCancel, this`cts, this`errorMessage, this`runMessage,
               this`progressValue, this`progressMaximum, this`progressMessage, this`progressLog, this`startedRuns
      ensures Valid()
      ensures !isRunning && !canCancel && cts.None?
      ensures progressValue == 0 && progressMaximum == 0 && progressMessage == ""
      ensures !CanCancelOperation() && (CanRunOperation() <==> selectedCount > 0)
      ensures old(parametersDataGrid).None? ==>
                && errorMessage == Some(NoItemsMessage())
                && runMessage == FailedMessage()
                && progressLog == old(progressLog) && startedRuns == old(startedRuns)
      ensures old(parametersDataGrid).Some? ==>
                var selected := old(parametersDataGrid).value.selectedItems;
                var started := Started(events, |selected|);
                && errorMessage.None?
                && runMessage == RunOutcome(events, |selected|)
                && startedRuns == old(startedRuns) + selected[..started]
                && progressLog == old(progressLog) + RunReports(selected[..started], |selected|)
    {
      BeginRun();
      RunAndFinish(events);
    }

    /** `RunOperation` after its start: the `try` block, then the `finally` block. */
    method RunAndFinish(events: seq<DelayEvent>)
      requires cts == Some(FreshTokenSource)
      modifies this`isRunning, this`canCancel, this`cts, this`errorMessage, this`runMessage,
               this`progressValue, this`progressMaximum, this`progressMessage, this`progressLog, this`startedRuns
      ensures !isRunning && !canCancel && cts.None?
      ensures progressValue == 0 && progressMaximum == 0 && progressMessage == ""
      ensures parametersDataGrid.None? ==>
                && errorMessage == Some(NoItemsMessage())
                && runMessage == FailedMessage()
                && progressLog == old(progressLog) && startedRuns == old(startedRuns)
      ensures parametersDataGrid.Some? ==>
                var selected := parametersDataGrid.value.selectedItems;
                var started := Started(events, |selected|);
                && errorMessage == old(errorMessage)
                && runMessage == RunOutcome(events, |selected|)
                && startedRuns == old(startedRuns) + selected[..started]
                && progressLog == old(progressLog) + RunReports(selected[..started], |selected|)
    {
      if parametersDataGrid.None? {
        FailNoItems();
      } else {
        RunSelectionAndFinish(events);
      }
    }

    /** A run without a selection: the `catch` block reports the failure, then the `finally` block runs. */
    method FailNoItems()
      modifies this`isRunning, this`canCancel, this`cts, this`errorMessage, this`runMessage,
               this`progressValue, this`progressMaximum, this`progressMessage
      ensures !isRunning && !canCancel && cts.None?
      ensures progressValue == 0 && progressMaximum == 0 && progressMessage == ""
      ensures errorMessage == Some(NoItemsMessage()) && runMessage == FailedMessage()
    {
      errorMessage := Some(NoItemsMessage());
      runMessage := FailedMessage();
      EndRun();
    }

    /** A run over the selection, then the `finally` block. */
    method RunSelectionAndFinish(events: seq<DelayEvent>)
      requires parametersDataGrid.Some? && cts == Some(FreshTokenSource)
      modifies this`isRunning, this`canCancel, this`cts, this`runMessage,
               this`progressValue, this`progressMaximum, this`progressMessage, this`progressLog, this`startedRuns
      ensures !isRunning && !canCancel && cts.None?
      ensures progressValue == 0 && progressMaximum == 0 && progressMessage == ""
      ensures var selected := parametersDataGrid.value.selectedItems;
              && runMessage == RunOutcome(events, |selected|)
              && startedRuns == old(startedRuns) + selected[..Started(events, |selected|)]
              && progressLog == old(progressLog) + RunReports(selected[..Started(events, |selected|)], |selected|)
    {
      RunSelection(events);
      EndRun();
    }

    /** The start of a run: the run flags are raised, a fresh token source is made and the error is cleared. */
    method BeginRun()
      modifies this`isRunning, this`canCancel, this`cts, this`errorMessage
      ensures isRunning && canCancel && cts == Some(FreshTokenSource) && errorMessage.None?
    {
      isRunning := true;
      canCancel := true;
      cts := Some(FreshTokenSource);
      errorMessage := None;
    }

    /** The `finally` block of a run: the flags and progress fields are cleared and the token source dropped. */
    method EndRun()
      modifies this`isRunning, this`canCancel, this`cts, this`progressValue, this`progressMaximum, this`progressMessage
      ensures !isRunning && !canCancel && cts.None?
      ensures progressValue == 0 && progressMaximum == 0 && progressMessage == ""
    {
      isRunning := false;
      canCancel := false;
      progressValue, progressMaximum, progressMessage := 0, 0, "";
      cts := None;
    }

    /**
     * The body of `RunOperation` once a grid exists: runs its selected rows and
     * sets the message the run ends with.
     */
    method RunSelection(events: seq<DelayEvent>)
      requires parametersDataGrid.Some? && cts == Some(FreshTokenSource)
      modifies this`cts, this`runMessage, this`progressValue, this`progressMaximum, this`progressMessage,
               this`progressLog, this`startedRuns
      ensures cts.Some? && !cts.value.disposed
      ensures var selected := parametersDataGrid.value.selectedItems;
              && runMessage == RunOutcome(events, |selected|)
              && startedRuns == old(startedRuns) + selected[..Started(events, |selected|)]
              && progressLog == old(progressLog) + RunReports(selected[..Started(events, |selected|)], |selected|)
    {
      var selectedItems := parametersDataGrid.value.selectedItems;
      progressMaximum := |selectedItems|;
      var canceledInDelay := RunRows(selectedItems, events);
      if canceledInDelay {
        runMessage := "Operation canceled";
      } else {
        runMessage := if cts.value.cancelRequested then "Operation canceled" else "Finished";
      }
    }

    /**
     * The loop of `RunOperation`: checks for cancellation, then runs row after
     * row. Returns whether the last delay ended with a cancellation exception.
     */
    method RunRows(selectedItems: seq<Row>, events: seq<DelayEvent>) returns (canceledInDelay: bool)
      requires cts == Some(FreshTokenSource)
      modifies this`cts, this`runMessage, this`progressValue, this`progressMaximum, this`progressMessage,
               this`progressLog, this`startedRuns
      ensures cts.Some? && !cts.value.disposed
      ensures cts.value.cancelRequested <==> FirstCancel(events, |selectedItems|) < |selectedItems|
      ensures canceledInDelay ==> cts.value.cancelRequested
      ensures startedRuns == old(startedRuns) + selectedItems[..Started(events, |selectedItems|)]
      ensures progressLog == old(progressLog) + RunReports(selectedItems[..Started(events, |selectedItems|)], |selectedItems|)
    {
      ghost var started0, log0 := startedRuns, progressLog;
      var i := 0;
      canceledInDelay := false;
      while i < |selectedItems| && !cts.value.cancelRequested
        invariant RunLoop(selectedItems, events, i, started0, log0)
        invariant canceledInDelay ==> cts.value.cancelRequested
        decreases |selectedItems| - i
      {
        canceledInDelay := RunStep(selectedItems, events, i, started0, log0);
        i := i + 1;
      }
    }

    /**
     * The state of the run loop before its `i`-th iteration: the token source
     * is canceled exactly when the user canceled in the iteration before,
     * and every earlier row has been started and reported.
     */
    ghost predicate RunLoop(selectedItems: seq<Row>, events: seq<DelayEvent>, i: nat,
                            started0: seq<Row>, log0: seq<ProgressReport>)
      reads this`cts, this`startedRuns, this`progressLog
    {
      && i <= |selectedItems|
      && (cts == Some(FreshTokenSource) || cts == Some(TokenSource(true, false)))
      && (!cts.value.cancelRequested ==> FirstCancelFrom(events, i, |selectedItems|) == FirstCancel(events, |selectedItems|))
      && (cts.value.cancelRequested ==> i > 0 && FirstCancel(events, |selectedItems|) == i - 1)
      && startedRuns == started0 + selectedItems[..i]
      && progressLog == log0 + RunReports(selectedItems[..i], |selectedItems|)
    }

    /** One turn of the run loop, from the state before iteration `i` to the state before iteration `i + 1`. */
    method RunStep(selectedItems: seq<Row>, events: seq<DelayEvent>, i: nat,
                   ghost started0: seq<Row>, ghost log0: seq<ProgressReport>) returns (canceledInDelay: bool)
      requires i < |selectedItems| && RunLoop(selectedItems, events, i, started0, log0)
      requires !cts.value.cancelRequested
      modifies this`cts, this`runMessage, this`progressValue, this`progressMaximum, this`progressMessage,
               this`progressLog, this`startedRuns
      ensures RunLoop(selectedItems, events, i + 1, started0, log0)
      ensures canceledInDelay ==> cts.value.cancelRequested
    {
      var row := selectedItems[i];
      canceledInDelay := RunRow(row, i + 1, |selectedItems|, DelayEventAt(events, i));
      RunReportsExtend(selectedItems, |selectedItems|, i);
    }

    /**
     * One iteration of the run loop: reports progress for the `current`-th of
     * `total` rows, shows its message and awaits the delay, during or after
     * which the user may cancel.
     */
    method RunRow(row: Row, current: nat, total: nat, event: DelayEvent) returns (canceledInDelay: bool)
      requires cts == Some(FreshTokenSource)
      modifies this`cts, this`runMessage, this`progressValue, this`progressMaximum, this`progressMessage,
               this`progressLog, this`startedRuns
      ensures progressValue == current && progressMaximum == total
      ensures progressLog == old(progressLog) + [RunReport(current, total, row)]
      ensures startedRuns == old(startedRuns) + [row]
      ensures runMessage == ExecutingMessage(RunLabel(row), current, total)
      ensures cts == if event == Elapsed then old(cts) else Some(TokenSource(true, false))
      ensures canceledInDelay <==> event == CanceledDuring
    {
      var runIndex := RunLabel(row);
      var report := RunReport(current, total, row);
      progressValue, progressMaximum, progressMessage := report.current, report.total, report.message;
      progressLog := progressLog + [report];
      startedRuns := startedRuns + [row];
      runMessage := ExecutingMessage(runIndex, current, total);
      canceledInDelay := false;
      match event {
        case Elapsed =>
        case CanceledDuring =>
          var _ := CancelOperation();
          canceledInDelay := true;
        case CanceledAfter =>
          var _ := CancelOperation();
      }
    }

    /** Requests cancellation of the current run, if any; canceling a disposed source throws. */
    method CancelOperation() returns (thrown: Option<string>)
      modifies this`cts
      ensures old(cts).None? ==> cts.None? && thrown.None?
      ensures old(cts).Some? && old(cts).value.disposed ==> cts == old(cts) && thrown == Some(DisposedTokenSourceMessage)
      ensures old(cts).Some? && !old(cts).value.disposed ==>
                cts == Some(TokenSource(true, false)) && thrown.None?
    {
      thrown := None;
      if cts.Some? {
        if cts.value.disposed {
          thrown := Some(DisposedTokenSourceMessage);
        } else {
          cts := Some(cts.value.(cancelRequested := true));
        }
      }
    }

    /** Cancels and disposes the token source and detaches the grid handlers, once. */
    method Dispose()
      requires Valid()
      modifies this`cts, this`handlersAttached, this`disposed
      ensures Valid() && disposed
      ensures old(disposed) ==> cts == old(cts) && handlersAttached == old(handlersAttached)
      ensures !old(disposed) ==> !handlersAttached
      ensures !old(disposed) ==> (old(cts).None? <==> cts.None?)
      ensures !old(disposed) && cts.Some? ==> cts.value.cancelRequested && cts.value.disposed
    {
      if disposed {
        return;
      }
      if cts.Some? {
        cts := Some(TokenSource(true, true));
      }
      if parametersDataGrid.Some? {
        handlersAttached := false;
      }
      disposed := true;
    }
  }
}
