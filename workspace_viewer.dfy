/**
 * The read-only workspace viewer (WorkspaceViewerViewModel): loads a
 * workspace file and shows its texts and its parameter grid, with a "Run #"
 * column. Like the workspace parameters view-model it stores the converted
 * workspace before reading its fields, so a null field makes the load fail
 * after the workspace, and perhaps its texts, have been replaced.
 */
module WorkspaceViewer {
  import opened Wrappers
  import opened Domain
  import opened Grid

  /** What loading a workspace determines in the viewer: the workspace, its texts and its grid. */
  datatype Display = Display(
    workspace: Option<Project>,
    workspaceName: Option<string>,
    workspaceDescription: Option<string>,
    rootDirectory: Option<string>,
    grid: Option<DataGrid>)

  /** The message of the exception that escapes converting and showing a decoded DTO, if any. */
  function DataError(conversion: Conversion): Option<string> {
    match conversion
    case ConversionThrows(m) => Some(m)
    case ConversionReturns(None) => Some(NullReferenceMessage)
    case ConversionReturns(Some(w)) => WorkspaceGridError(w)
  }

  /**
   * What is shown after converting a decoded DTO, from `s`: a null result is
   * stored before it is dereferenced; a workspace and its texts are stored
   * before its grid is built, and the grid is replaced only when it could be
   * built.
   */
  function DataShown(s: Display, conversion: Conversion): Display {
    match conversion
    case ConversionThrows(_) => s
    case ConversionReturns(None) => s.(workspace := None)
    case ConversionReturns(Some(w)) =>
      Display(Some(w), w.name, w.description, w.rootDirectory,
              if WorkspaceGridError(w).None? then Some(WorkspaceGrid(w)) else s.grid)
  }

  /** The message of the exception that escapes reading, decoding, converting and showing a file, if any. */
  function LoadError(load: FileLoad): Option<string> {
    match load
    case ReadFailed(m) => Some(m)
    case DecodeFailed(m) => Some(m)
    case Decoded(_, conversion) => DataError(conversion)
  }

  /** What is shown after loading a file, from `s`. */
  function LoadShown(s: Display, load: FileLoad): Display {
    match load
    case ReadFailed(_) => s
    case DecodeFailed(_) => s
    case Decoded(_, conversion) => DataShown(s, conversion)
  }

  /**
   * A load succeeds exactly when the file converts to a workspace whose grid
   * can be built; then the workspace, its texts and its grid are shown.
   */
  lemma LoadSucceeds(s: Display, load: FileLoad)
    ensures LoadError(load).None? <==>
              load.Decoded? && load.conversion.ConversionReturns? && load.conversion.result.Some?
              && WorkspaceGridError(load.conversion.result.value).None?
    ensures LoadError(load).None? ==>
              var w := load.conversion.result.value;
              LoadShown(s, load) == Display(Some(w), w.name, w.description, w.rootDirectory, Some(WorkspaceGrid(w)))
  {
  }

  /** A failed load never replaces the grid, and leaves everything as it was when the file could not be converted. */
  lemma FailedLoadKeepsGrid(s: Display, load: FileLoad)
    requires LoadError(load).Some?
    ensures LoadShown(s, load).grid == s.grid
    ensures (load.ReadFailed? || load.DecodeFailed? || load.conversion.ConversionThrows?) ==> LoadShown(s, load) == s
  {
  }

  class WorkspaceViewerViewModel {
    var workspaceName: Option<string>
    var workspaceDescription: Option<string>
    var rootDirectory: Option<string>
    var filePath: string
    var isLoading: bool
    var errorMessage: Option<string>
    var parametersDataGrid: Option<DataGrid>
    var workspace: Option<Project>

    /** What loading a workspace determines. */
    function Shown(): Display
      reads this`workspace, this`workspaceName, this`workspaceDescription, this`rootDirectory, this`parametersDataGrid
    {
      Display(workspace, workspaceName, workspaceDescription, rootDirectory, parametersDataGrid)
    }

    constructor ()
      ensures Shown() == Display(None, Some(""), Some(""), Some(""), None)
      ensures filePath == "" && !isLoading && errorMessage.None?
    {
      workspaceName, workspaceDescription, rootDirectory := Some(""), Some(""), Some("");
      filePath := "";
      isLoading := false;
      errorMessage := None;
      parametersDataGrid := None;
      workspace := None;
    }

    /**
     * Reads a workspace file. It never throws: on failure the error text
     * names the exception; on success the error is cleared.
     */
    method LoadWorkspaceAsync(path: string, load: FileLoad)
      modifies this`isLoading, this`errorMessage, this`filePath, this`workspace, this`workspaceName,
               this`workspaceDescription, this`rootDirectory, this`parametersDataGrid
      ensures !isLoading && filePath == path
      ensures errorMessage == if LoadError(load).Some? then Some(LoadFailedText(LoadError(load).value)) else None
      ensures Shown() == LoadShown(old(Shown()), load)
    {
      isLoading := true;
      errorMessage := None;
      filePath := path;
      var thrown := ReadAndShow(load);
      if thrown.Some? {
        errorMessage := Some(LoadFailedText(thrown.value));
      }
      isLoading := false;
    }

    /** The loader's `try` block: reads and decodes the file and shows the workspace; returns the escaping exception's message. */
    method ReadAndShow(load: FileLoad) returns (thrown: Option<string>)
      modifies this`workspace, this`workspaceName, this`workspaceDescription, this`rootDirectory, this`parametersDataGrid
      ensures thrown == LoadError(load)
      ensures Shown() == LoadShown(old(Shown()), load)
    {
      match load {
        case ReadFailed(m) =>
          thrown := Some(m);
        case DecodeFailed(m) =>
          thrown := Some(m);
        case Decoded(_, conversion) =>
          thrown := LoadWorkspaceData(conversion);
      }
    }

    /** Converts the DTO, stores the result, then shows its texts and grid. */
    method LoadWorkspaceData(conversion: Conversion) returns (thrown: Option<string>)
      modifies this`workspace, this`workspaceName, this`workspaceDescription, this`rootDirectory, this`parametersDataGrid
      ensures thrown == DataError(conversion)
      ensures Shown() == DataShown(old(Shown()), conversion)
    {
      match conversion {
        case ConversionThrows(m) =>
          thrown := Some(m);
        case ConversionReturns(None) =>
          workspace := None;
          thrown := Some(NullReferenceMessage);
        case ConversionReturns(Some(w)) =>
          workspace := Some(w);
          workspaceName, workspaceDescription, rootDirectory := w.name, w.description, w.rootDirectory;
          thrown := CreateParametersDataGrid(w);
      }
    }

    /** Builds the grid of workspace `w` and installs it; nothing is installed when building it throws. */
    method CreateParametersDataGrid(w: Project) returns (thrown: Option<string>)
      modifies this`parametersDataGrid
      ensures thrown == WorkspaceGridError(w)
      ensures thrown.None? ==> parametersDataGrid == Some(WorkspaceGrid(w))
      ensures thrown.Some? ==> parametersDataGrid == old(parametersDataGrid)
    {
      if w.parameterKeys.None? {
        return Some(ArgumentNullMessage(ValueCannotBeNull, "source"));
      }
      var keys := w.parameterKeys.value;
      var keyColumns := BuildKeyColumns(keys);
      if w.runParametersArray.None? {
        return Some(NullReferenceMessage);
      }
      var rows := BuildWorkspaceRows(w.runParametersArray.value, keys);
      if rows.Err? {
        return Some(rows.message);
      }
      parametersDataGrid := Some(DataGrid([RunNumberColumn] + keyColumns, rows.value, []));
      thrown := None;
    }
  }
}
