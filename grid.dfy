/**
 * The parameter table: how an array of run-parameter sets becomes rows of a
 * data grid, which columns the grid shows, how selected rows are mapped back
 * to run-parameter sets through their 1-based "Index" entry, and the text
 * that summarises a selection.
 *
 * Two projections exist. The project table (ProjectParamsVm) tolerates a null
 * key list, null maps and null values, stores the set itself under
 * "RunParams", and throws only when it reads a key from a null set. The
 * workspace table (WorkspaceParamsVm and WorkspaceViewerViewModel) adds a
 * "Run #" column, stores null values as they are, and throws when it has to
 * read a null set or a null map.
 */
module Grid {
  import opened Wrappers
  import opened Strings
  import opened Sorting
  import opened Domain

  /** A value stored in a row dictionary. */
  datatype Cell = IndexCell(n: int) | ParamsCell(runParams: RunParameters) | TextCell(text: string) | NullCell

  /** One row of the grid: a dictionary from column binding key to value. */
  type Row = map<string, Cell>

  /** A text column: its header and the row key it is bound to. */
  datatype Column = Column(header: string, binding: string)

  /** The grid: its columns, its rows, and the rows currently selected, in selection order. */
  datatype DataGrid = DataGrid(columns: seq<Column>, rows: seq<Row>, selectedItems: seq<Row>)

  /** The index column of the workspace table. */
  const RunNumberColumn := Column("Run #", "Index")

  /** A possibly-null key list, read as empty when null. */
  function KeyList(keys: Option<seq<string>>): seq<string> {
    if keys.Some? then keys.value else []
  }

  // ---------------------------------------------------------------------------
  // Rows of the project table

  /** The text shown for `key` in the project table: the value, or "" if the map, the key or the value is missing. */
  function ProjectCell(rp: RunParameters, key: string): Cell {
    if MapReadable(rp) && key in rp.paramMap.value && rp.paramMap.value[key].Some?
    then TextCell(rp.paramMap.value[key].value)
    else TextCell("")
  }

  /**
   * Row `i` of the project table: "Index" holds `i + 1`, "RunParams" the set,
   * and each parameter key its text. A key named "Index" or "RunParams" is
   * written after those two entries and replaces them.
   */
  function ProjectRow(i: nat, rp: RunParameters, keys: seq<string>): Row {
    map k | k in {"Index", "RunParams"} + (set x | x in keys) :: ProjectEntry(i, rp, keys, k)
  }

  /** The entry for `k` in row `i`: a key's text, or else the index or the set itself. */
  function ProjectEntry(i: nat, rp: RunParameters, keys: seq<string>, k: string): Cell {
    if k in keys then ProjectCell(rp, k) else if k == "Index" then IndexCell(i + 1) else ParamsCell(rp)
  }

  /** The rows of the project table: row `i` shows set `i`. */
  function ProjectRows(arr: seq<RunParameters>, keys: seq<string>): seq<Row> {
    seq(|arr|, i requires 0 <= i < |arr| => ProjectRow(i, arr[i], keys))
  }

  /** Every set the project table reads a key from is non-null: with no keys, no set is read. */
  predicate SetsPresent(arr: seq<RunParameters>, keys: seq<string>) {
    keys == [] || forall i :: 0 <= i < |arr| ==> arr[i].RunParameters?
  }

  /**
   * Builds the rows of the project table, one per set, in array order; reading
   * a key from a null set throws.
   */
  method BuildProjectRows(arr: seq<RunParameters>, keys: Option<seq<string>>) returns (r: Result<seq<Row>>)
    ensures r.Ok? <==> SetsPresent(arr, KeyList(keys))
    ensures r.Err? ==> r.message == NullReferenceMessage
    ensures r.Ok? ==> r.value == ProjectRows(arr, KeyList(keys))
  {
    var rows: seq<Row> := [];
    for i := 0 to |arr|
      invariant |rows| == i
      invariant SetsPresent(arr[..i], KeyList(keys))
      invariant forall r :: 0 <= r < i ==> rows[r] == ProjectRow(r, arr[r], KeyList(keys))
    {
      var row := BuildProjectRow(i, arr[i], keys);
      if row.Err? {
        return Err(row.message);
      }
      rows := rows + [row.value];
    }
    assert arr[..|arr|] == arr;
    r := Ok(rows);
  }

  /**
   * Builds row `i`: the "Index" and "RunParams" entries, then one entry per
   * key, in key order; reading a key from a null set throws.
   */
  method BuildProjectRow(i: nat, rp: RunParameters, keys: Option<seq<string>>) returns (r: Result<Row>)
    ensures r.Ok? <==> KeyList(keys) == [] || rp.RunParameters?
    ensures r.Err? ==> r.message == NullReferenceMessage
    ensures r.Ok? ==> r.value == ProjectRow(i, rp, KeyList(keys))
  {
    var row := map["Index" := IndexCell(i + 1), "RunParams" := ParamsCell(rp)];
    var ks := KeyList(keys);
    if keys.Some? {
      r := AddProjectCells(row, i, rp, ks);
      if r.Err? {
        return;
      }
      row := r.value;
    }
    ProjectRowBuilt(row, i, rp, ks);
    r := Ok(row);
  }

  /**
   * Writes each key's text into `row`, in key order; a later entry replaces an
   * earlier one. Testing a null set's map throws.
   */
  method AddProjectCells(row0: Row, i: nat, rp: RunParameters, ks: seq<string>) returns (r: Result<Row>)
    requires row0 == map["Index" := IndexCell(i + 1), "RunParams" := ParamsCell(rp)]
    ensures r.Ok? <==> ks == [] || rp.RunParameters?
    ensures r.Err? ==> r.message == NullReferenceMessage
    ensures r.Ok? ==> r.value.Keys == {"Index", "RunParams"} + (set x | x in ks)
    ensures r.Ok? ==> forall k :: k in r.value ==> r.value[k] == ProjectEntry(i, rp, ks, k)
  {
    var row := row0;
    for j := 0 to |ks|
      invariant j > 0 ==> rp.RunParameters?
      invariant row.Keys == {"Index", "RunParams"} + (set x | x in ks[..j])
      invariant forall k :: k in row ==> row[k] == ProjectEntry(i, rp, ks[..j], k)
    {
      var key := ks[j];
      if rp.NullRunParameters? {
        return Err(NullReferenceMessage);
      }
      if rp.paramMap.Some? && key in rp.paramMap.value {
        var value := rp.paramMap.value[key];
        row := row[key := if value.Some? then TextCell(value.value) else TextCell("")];
      } else {
        row := row[key := TextCell("")];
      }
      assert ks[..j + 1] == ks[..j] + [key];
    }
    assert ks[..|ks|] == ks;
    r := Ok(row);
  }

  /** A row with the entries of row `i` for `keys` is that row. */
  lemma ProjectRowBuilt(row: Row, i: nat, rp: RunParameters, keys: seq<string>)
    requires row.Keys == {"Index", "RunParams"} + (set x | x in keys)
    requires forall k :: k in row ==> row[k] == ProjectEntry(i, rp, keys, k)
    ensures row == ProjectRow(i, rp, keys)
  {
  }

  // ---------------------------------------------------------------------------
  // Rows of the workspace table

  /** The value stored for `key` in the workspace table: the value (possibly null), or "" if the key is missing. */
  function WorkspaceCell(m: map<string, Option<string>>, key: string): Cell {
    if key in m then (if m[key].Some? then TextCell(m[key].value) else NullCell) else TextCell("")
  }

  /** Every set and map the workspace table reads is non-null: with no keys, none is read. */
  predicate MapsReadable(arr: seq<RunParameters>, keys: seq<string>) {
    keys == [] || forall i :: 0 <= i < |arr| ==> MapReadable(arr[i])
  }

  /** Row `i` of the workspace table: "Index" holds `i + 1`, and each key its value; a key named "Index" replaces it. */
  function WorkspaceRow(i: nat, rp: RunParameters, keys: seq<string>): Row
    requires keys == [] || MapReadable(rp)
  {
    map k | k in {"Index"} + (set x | x in keys) :: WorkspaceEntry(i, rp, keys, k)
  }

  /** The entry for `k` in row `i`: a key's value, or else the index. */
  function WorkspaceEntry(i: nat, rp: RunParameters, keys: seq<string>, k: string): Cell
    requires keys == [] || MapReadable(rp)
  {
    if k in keys then WorkspaceCell(rp.paramMap.value, k) else IndexCell(i + 1)
  }

  /** The rows of the workspace table: row `i` shows set `i`. */
  function WorkspaceRows(arr: seq<RunParameters>, keys: seq<string>): seq<Row>
    requires MapsReadable(arr, keys)
  {
    seq(|arr|, i requires 0 <= i < |arr| => WorkspaceRow(i, arr[i], keys))
  }

  /** Builds the rows of the workspace table; reading a null set or a null map throws. */
  method BuildWorkspaceRows(arr: seq<RunParameters>, keys: seq<string>) returns (r: Result<seq<Row>>)
    ensures r.Ok? <==> MapsReadable(arr, keys)
    ensures r.Err? ==> r.message == NullReferenceMessage
    ensures r.Ok? ==> r.value == WorkspaceRows(arr, keys)
  {
    var rows: seq<Row> := [];
    for i := 0 to |arr|
      invariant |rows| == i
      invariant MapsReadable(arr[..i], keys)
      invariant forall r :: 0 <= r < i ==> rows[r] == WorkspaceRow(r, arr[r], keys)
    {
      var row := BuildWorkspaceRow(i, arr[i], keys);
      if row.Err? {
        return Err(row.message);
      }
      rows := rows + [row.value];
    }
    assert arr[..|arr|] == arr;
    r := Ok(rows);
  }

  /** Builds row `i`: the "Index" entry, then one entry per key, in key order; reading a null set or a null map throws. */
  method BuildWorkspaceRow(i: nat, rp: RunParameters, keys: seq<string>) returns (r: Result<Row>)
    ensures r.Ok? <==> keys == [] || MapReadable(rp)
    ensures r.Err? ==> r.message == NullReferenceMessage
    ensures r.Ok? ==> r.value == WorkspaceRow(i, rp, keys)
  {
    var row: Row := map["Index" := IndexCell(i + 1)];
    for j := 0 to |keys|
      invariant j > 0 ==> MapReadable(rp)
      invariant row.Keys == {"Index"} + (set x | x in keys[..j])
      invariant forall k :: k in row ==> row[k] == WorkspaceEntry(i, rp, keys[..j], k)
    {
      var key := keys[j];
      if !MapReadable(rp) {
        return Err(NullReferenceMessage);
      }
      if key in rp.paramMap.value {
        var value := rp.paramMap.value[key];
        row := row[key := if value.Some? then TextCell(value.value) else NullCell];
      } else {
        row := row[key := TextCell("")];
      }
      assert keys[..j + 1] == keys[..j] + [key];
    }
    assert keys[..|keys|] == keys;
    WorkspaceRowBuilt(row, i, rp, keys);
    r := Ok(row);
  }

  /** A row with the entries of row `i` for `keys` is that row. */
  lemma WorkspaceRowBuilt(row: Row, i: nat, rp: RunParameters, keys: seq<string>)
    requires keys == [] || MapReadable(rp)
    requires row.Keys == {"Index"} + (set x | x in keys)
    requires forall k :: k in row ==> row[k] == WorkspaceEntry(i, rp, keys, k)
    ensures row == WorkspaceRow(i, rp, keys)
  {
  }

  // ---------------------------------------------------------------------------
  // Columns

  /** The headers of a list of columns. */
  function Headers(cols: seq<Column>): seq<string> {
    seq(|cols|, j requires 0 <= j < |cols| => cols[j].header)
  }

  /**
   * `cols` shows the keys in ascending order: one column per key (duplicates
   * included), bound to the key it is headed by.
   */
  ghost predicate IsKeyColumns(cols: seq<Column>, keys: seq<string>) {
    && (forall j :: 0 <= j < |cols| ==> cols[j].binding == cols[j].header)
    && SortedBy(Headers(cols), Id)
    && multiset(Headers(cols)) == multiset(keys)
  }

  /** The key columns: one per key, headed by and bound to that key, in `OrderBy(k => k)` order. */
  function KeyColumns(keys: seq<string>): seq<Column> {
    var sorted := SortBy(keys, Id);
    seq(|sorted|, j requires 0 <= j < |sorted| => Column(sorted[j], sorted[j]))
  }

  /** `KeyColumns` shows every key once per occurrence, in ascending order. */
  lemma KeyColumnsShowKeys(keys: seq<string>)
    ensures |KeyColumns(keys)| == |keys|
    ensures IsKeyColumns(KeyColumns(keys), keys)
  {
    var cols := KeyColumns(keys);
    SortBySorted(keys, Id);
    assert Headers(cols) == SortBy(keys, Id);
    assert |multiset(keys)| == |multiset(Headers(cols))|;
  }

  /** Adds one column per key, in the order `OrderBy(k => k)` gives. */
  method BuildKeyColumns(keys: seq<string>) returns (cols: seq<Column>)
    ensures cols == KeyColumns(keys)
  {
    var sorted := SortBy(keys, Id);
    cols := [];
    for j := 0 to |sorted|
      invariant |cols| == j
      invariant forall m :: 0 <= m < j ==> cols[m] == Column(sorted[m], sorted[m])
    {
      cols := cols + [Column(sorted[j], sorted[j])];
    }
  }

  /** The key columns are determined by the keys alone. */
  lemma KeyColumnsUnique(a: seq<Column>, b: seq<Column>, keys: seq<string>)
    requires IsKeyColumns(a, keys) && IsKeyColumns(b, keys)
    ensures a == b
  {
    AscendingUnique(Headers(a), Headers(b));
    assert |a| == |Headers(a)| == |Headers(b)| == |b|;
    forall j | 0 <= j < |a| ensures a[j] == b[j] {
      assert a[j].header == Headers(a)[j] == Headers(b)[j] == b[j].header;
    }
  }

  /** Every key column is bound to a key that every project row holds. */
  lemma ProjectColumnsBound(cols: seq<Column>, keys: seq<string>, i: nat, rp: RunParameters)
    requires IsKeyColumns(cols, keys)
    ensures forall c :: c in cols ==> c.binding in ProjectRow(i, rp, keys)
  {
    forall c | c in cols ensures c.binding in ProjectRow(i, rp, keys) {
      var j :| 0 <= j < |cols| && cols[j] == c;
      assert Headers(cols)[j] == c.header;
      assert c.header in multiset(keys);
    }
  }

  /** Every workspace column, "Run #" included, is bound to a key that every workspace row holds. */
  lemma WorkspaceColumnsBound(cols: seq<Column>, keys: seq<string>, i: nat, rp: RunParameters)
    requires IsKeyColumns(cols, keys)
    requires keys == [] || MapReadable(rp)
    ensures forall c :: c in [RunNumberColumn] + cols ==> c.binding in WorkspaceRow(i, rp, keys)
  {
    forall c | c in cols ensures c.binding in WorkspaceRow(i, rp, keys) {
      var j :| 0 <= j < |cols| && cols[j] == c;
      assert Headers(cols)[j] == c.header;
      assert c.header in multiset(keys);
    }
  }

  // ---------------------------------------------------------------------------
  // The workspace grid

  /**
   * The message of the exception that building the grid of workspace `w`
   * throws: sorting null parameter keys, reading the length of a null array,
   * or reading a null set or a null parameter map.
   */
  function WorkspaceGridError(w: Project): Option<string> {
    if w.parameterKeys.None? then Some(ArgumentNullMessage(ValueCannotBeNull, "source"))
    else if w.runParametersArray.None? then Some(NullReferenceMessage)
    else if !MapsReadable(w.runParametersArray.value, w.parameterKeys.value) then Some(NullReferenceMessage)
    else None
  }

  /** The grid of workspace `w`: "Run #" and the sorted key columns, one row per set, nothing selected. */
  function WorkspaceGrid(w: Project): DataGrid
    requires WorkspaceGridError(w).None?
  {
    var keys := w.parameterKeys.value;
    DataGrid([RunNumberColumn] + KeyColumns(keys), WorkspaceRows(w.runParametersArray.value, keys), [])
  }

  /**
   * The grid of a workspace: "Run #" first, then one column per parameter key
   * in ascending order; one row per set, in array order, whose "Index" is its
   * 1-based position unless a key is named "Index"; every column's binding is
   * an entry of every row.
   */
  lemma WorkspaceGridShape(w: Project)
    requires WorkspaceGridError(w).None?
    ensures var g := WorkspaceGrid(w);
            && g.columns[0] == RunNumberColumn
            && IsKeyColumns(g.columns[1..], w.parameterKeys.value)
            && |g.rows| == |w.runParametersArray.value|
            && g.selectedItems == []
    ensures var g := WorkspaceGrid(w);
            forall i :: 0 <= i < |g.rows| && "Index" !in w.parameterKeys.value ==> g.rows[i]["Index"] == IndexCell(i + 1)
    ensures var g := WorkspaceGrid(w);
            forall i, c :: 0 <= i < |g.rows| && c in g.columns ==> c.binding in g.rows[i]
  {
    var keys := w.parameterKeys.value;
    var arr := w.runParametersArray.value;
    var g := WorkspaceGrid(w);
    KeyColumnsShowKeys(keys);
    assert g.columns[1..] == KeyColumns(keys);
    forall i, c | 0 <= i < |g.rows| && c in g.columns ensures c.binding in g.rows[i] {
      WorkspaceColumnsBound(KeyColumns(keys), keys, i, arr[i]);
    }
  }

  // ---------------------------------------------------------------------------
  // Selected rows back to run-parameter sets

  /** The row's "Index" entry, when it is an integer. */
  function RowIndex(row: Row): Option<int> {
    if "Index" in row && row["Index"].IndexCell? then Some(row["Index"].n) else None
  }

  /** The set a selected row stands for: `arr[Index - 1]` when that is in range, and nothing otherwise. */
  function ChosenFor(row: Row, arr: seq<RunParameters>): seq<RunParameters> {
    match RowIndex(row)
    case Some(n) => if 1 <= n <= |arr| then [arr[n - 1]] else []
    case None => []
  }

  /** The sets the selected rows stand for, in selection order. */
  function SelectRunParameters(selected: seq<Row>, arr: seq<RunParameters>): seq<RunParameters>
    decreases |selected|
  {
    if selected == [] then []
    else SelectRunParameters(selected[..|selected| - 1], arr) + ChosenFor(selected[|selected| - 1], arr)
  }

  /** Collects the sets for the selected rows, skipping rows without an in-range integer "Index". */
  method MapSelection(selected: seq<Row>, arr: seq<RunParameters>) returns (chosen: seq<RunParameters>)
    ensures chosen == SelectRunParameters(selected, arr)
  {
    chosen := [];
    for k := 0 to |selected|
      invariant chosen == SelectRunParameters(selected[..k], arr)
    {
      var item := selected[k];
      if "Index" in item && item["Index"].IndexCell? {
        var arrayIndex := item["Index"].n - 1;
        if 0 <= arrayIndex < |arr| {
          chosen := chosen + [arr[arrayIndex]];
        }
      }
      assert selected[..k + 1][..k] == selected[..k];
    }
    assert selected[..|selected|] == selected;
  }

  /** Mapping a selection made of two parts maps each part, in order. */
  lemma {:induction false} SelectAppend(a: seq<Row>, b: seq<Row>, arr: seq<RunParameters>)
    ensures SelectRunParameters(a + b, arr) == SelectRunParameters(a, arr) + SelectRunParameters(b, arr)
    decreases |b|
  {
    if b != [] {
      var b' := b[..|b| - 1];
      assert (a + b)[..|a + b| - 1] == a + b';
      SelectAppend(a, b', arr);
    } else {
      assert a + b == a;
    }
  }

  /** The mapped sets are never more than the selected rows, and each is a set of the array. */
  lemma {:induction false} SelectBounded(selected: seq<Row>, arr: seq<RunParameters>)
    ensures |SelectRunParameters(selected, arr)| <= |selected|
    ensures forall x :: x in SelectRunParameters(selected, arr) ==> x in arr
    decreases |selected|
  {
    if selected != [] {
      SelectBounded(selected[..|selected| - 1], arr);
    }
  }

  /** The project rows at the given positions. */
  function ProjectRowsAt(ps: seq<nat>, arr: seq<RunParameters>, keys: seq<string>): seq<Row>
    requires forall j :: 0 <= j < |ps| ==> ps[j] < |arr|
  {
    seq(|ps|, j requires 0 <= j < |ps| => ProjectRow(ps[j], arr[ps[j]], keys))
  }

  /** The sets at the given positions. */
  function SetsAt(ps: seq<nat>, arr: seq<RunParameters>): seq<RunParameters>
    requires forall j :: 0 <= j < |ps| ==> ps[j] < |arr|
  {
    seq(|ps|, j requires 0 <= j < |ps| => arr[ps[j]])
  }

  /**
   * Rows whose integer "Index" is one more than a position in the array map
   * back to the sets at those positions, in order.
   */
  lemma {:induction false} IndexedSelection(rows: seq<Row>, ps: seq<nat>, arr: seq<RunParameters>)
    requires |rows| == |ps|
    requires forall j :: 0 <= j < |ps| ==> ps[j] < |arr| && RowIndex(rows[j]) == Some(ps[j] + 1)
    ensures SelectRunParameters(rows, arr) == SetsAt(ps, arr)
    decreases |ps|
  {
    if ps != [] {
      var ps' := ps[..|ps| - 1];
      IndexedSelection(rows[..|rows| - 1], ps', arr);
      assert SetsAt(ps, arr) == SetsAt(ps', arr) + [arr[ps[|ps| - 1]]];
    }
  }

  /**
   * Selecting project rows, in any order and with repeats, maps back to
   * exactly the sets those rows were built from, in selection order, unless a
   * parameter key is named "Index".
   */
  lemma ProjectSelectionRoundTrip(ps: seq<nat>, arr: seq<RunParameters>, keys: seq<string>)
    requires forall j :: 0 <= j < |ps| ==> ps[j] < |arr|
    requires "Index" !in keys
    ensures SelectRunParameters(ProjectRowsAt(ps, arr, keys), arr) == SetsAt(ps, arr)
  {
    ProjectRowsIndexed(ps, arr, keys);
    IndexedSelection(ProjectRowsAt(ps, arr, keys), ps, arr);
  }

  /** Each selected project row carries its position plus one as its index. */
  lemma ProjectRowsIndexed(ps: seq<nat>, arr: seq<RunParameters>, keys: seq<string>)
    requires forall j :: 0 <= j < |ps| ==> ps[j] < |arr|
    requires "Index" !in keys
    ensures forall j :: 0 <= j < |ps| ==> RowIndex(ProjectRowsAt(ps, arr, keys)[j]) == Some(ps[j] + 1)
  {
    forall j | 0 <= j < |ps| ensures RowIndex(ProjectRowsAt(ps, arr, keys)[j]) == Some(ps[j] + 1) {
      ProjectRowIndex(ps[j], arr[ps[j]], keys);
    }
  }

  /** Without a key named "Index", a project row's index is its position plus one. */
  lemma ProjectRowIndex(i: nat, rp: RunParameters, keys: seq<string>)
    requires "Index" !in keys
    ensures RowIndex(ProjectRow(i, rp, keys)) == Some(i + 1)
  {
    assert "Index" in ProjectRow(i, rp, keys);
  }

  /**
   * A parameter key named "Index" overwrites the project row's index with the
   * key's text, so selecting that row yields no set.
   */
  lemma IndexKeyDropsProjectRow(i: nat, rp: RunParameters, keys: seq<string>, arr: seq<RunParameters>)
    requires "Index" in keys
    ensures ProjectRow(i, rp, keys)["Index"].TextCell?
    ensures RowIndex(ProjectRow(i, rp, keys)).None?
    ensures SelectRunParameters([ProjectRow(i, rp, keys)], arr) == []
  {
    var row := ProjectRow(i, rp, keys);
    assert row["Index"] == ProjectCell(rp, "Index");
    var sel: seq<Row> := [row];
    assert sel[..0] == [];
  }

  /** The workspace rows at the given positions. */
  function WorkspaceRowsAt(ps: seq<nat>, arr: seq<RunParameters>, keys: seq<string>): seq<Row>
    requires forall j :: 0 <= j < |ps| ==> ps[j] < |arr|
    requires MapsReadable(arr, keys)
  {
    seq(|ps|, j requires 0 <= j < |ps| => WorkspaceRow(ps[j], arr[ps[j]], keys))
  }

  /** The workspace table round trip: selected rows map back to the sets they show, unless a key is named "Index". */
  lemma WorkspaceSelectionRoundTrip(ps: seq<nat>, arr: seq<RunParameters>, keys: seq<string>)
    requires forall j :: 0 <= j < |ps| ==> ps[j] < |arr|
    requires MapsReadable(arr, keys)
    requires "Index" !in keys
    ensures SelectRunParameters(WorkspaceRowsAt(ps, arr, keys), arr) == SetsAt(ps, arr)
  {
    WorkspaceRowsIndexed(ps, arr, keys);
    IndexedSelection(WorkspaceRowsAt(ps, arr, keys), ps, arr);
  }

  /** Each selected workspace row carries its position plus one as its index. */
  lemma WorkspaceRowsIndexed(ps: seq<nat>, arr: seq<RunParameters>, keys: seq<string>)
    requires forall j :: 0 <= j < |ps| ==> ps[j] < |arr|
    requires MapsReadable(arr, keys)
    requires "Index" !in keys
    ensures forall j :: 0 <= j < |ps| ==> RowIndex(WorkspaceRowsAt(ps, arr, keys)[j]) == Some(ps[j] + 1)
  {
    forall j | 0 <= j < |ps| ensures RowIndex(WorkspaceRowsAt(ps, arr, keys)[j]) == Some(ps[j] + 1) {
      WorkspaceRowIndex(ps[j], arr[ps[j]], keys);
    }
  }

  /** Without a key named "Index", a workspace row's index is its position plus one. */
  lemma WorkspaceRowIndex(i: nat, rp: RunParameters, keys: seq<string>)
    requires "Index" !in keys && (keys == [] || MapReadable(rp))
    ensures RowIndex(WorkspaceRow(i, rp, keys)) == Some(i + 1)
  {
    assert "Index" in WorkspaceRow(i, rp, keys);
  }

  /**
   * A parameter key named "Index" overwrites the workspace row's index with
   * the key's value, so selecting that row yields no set.
   */
  lemma IndexKeyDropsWorkspaceRow(i: nat, rp: RunParameters, keys: seq<string>, arr: seq<RunParameters>)
    requires "Index" in keys && MapReadable(rp)
    ensures !WorkspaceRow(i, rp, keys)["Index"].IndexCell?
    ensures RowIndex(WorkspaceRow(i, rp, keys)).None?
    ensures SelectRunParameters([WorkspaceRow(i, rp, keys)], arr) == []
  {
    var row := WorkspaceRow(i, rp, keys);
    assert row["Index"] == WorkspaceCell(rp.paramMap.value, "Index");
    var sel: seq<Row> := [row];
    assert sel[..0] == [];
  }

  // ---------------------------------------------------------------------------
  // The selection summary

  /** The text that describes a selection of `count` rows, in its "Running" form while loading. */
  function SelectionMessage(count: nat, isLoading: bool): (msg: string)
    ensures |msg| >= 7 && (isLoading <==> msg[0] == 'R') && (isLoading ==> msg[..7] == "Running")
    ensures !isLoading ==> EndsWith(msg, " selected")
  {
    if count == 0 then (if isLoading then "Running..." else "No runs selected")
    else if count == 1 then (if isLoading then "Running 1 parameter set..." else "1 run selected")
    else if isLoading then "Running " + NatToString(count) + " parameter sets..."
    else NatToString(count) + " runs selected"
  }

  /** The digits of the count sit between a fixed prefix and a fixed suffix. */
  lemma MiddleOf(p: string, x: string, y: string, q: string)
    requires p + x + q == p + y + q
    ensures x == y
  {
    assert x == (p + x + q)[|p|..|p| + |x|];
    assert y == (p + y + q)[|p|..|p| + |y|];
  }

  /** The selection text tells the count and whether a run is in progress: no two situations share a text. */
  lemma SelectionMessageDetermines(c1: nat, l1: bool, c2: nat, l2: bool)
    requires SelectionMessage(c1, l1) == SelectionMessage(c2, l2)
    ensures c1 == c2 && l1 == l2
  {
    var m := SelectionMessage(c1, l1);
    var n1, n2 := NatToString(c1), NatToString(c2);
    // Texts of a running grid start with 'R', the others with 'N' or a digit.
    assert m[0] == 'R' <==> l1;
    assert m[0] == 'R' <==> l2;
    if c1 >= 2 && c2 >= 2 {
      if l1 {
        MiddleOf("Running ", n1, n2, " parameter sets...");
      } else {
        assert [] + n1 + " runs selected" == m == [] + n2 + " runs selected";
        MiddleOf([], n1, n2, " runs selected");
      }
      NatToStringInjective(c1, c2);
    } else {
      // The texts for no rows and for one row have lengths no other count gives.
      assert |m| == |SelectionMessage(c2, l2)|;
      assert c1 != c2 ==> (c1 >= 2 || c2 >= 2);
    }
  }
}
