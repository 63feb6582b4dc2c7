/**
 * The experiment window (ExperimentViewModel): a directory tree of the
 * experiment's folder, a selected file item, and a set of file tabs, each
 * showing one file either in a plain viewer or, for a workspace file, in a
 * workspace parameters view. The file system is an input: the tree of
 * directories and files that the enumeration calls would report.
 */
module Experiment {
  import opened Wrappers
  import opened Strings
  import opened Sorting
  import opened Tabs

  // ---------------------------------------------------------------------------
  // Workspace files

  /**
   * A file is opened in a workspace view when its extension is `.workspace`,
   * its name contains `workspace`, or its name ends in `.msgpack`, all
   * compared after lower-casing. The extension test is the same as asking
   * whether the lower-cased path ends in `.workspace`.
   */
  function IsWorkspaceFile(path: string, fileName: string): (b: bool)
    ensures b <==> EndsWith(Lower(path), ".workspace")
                   || Contains(Lower(fileName), "workspace")
                   || EndsWith(Lower(fileName), ".msgpack")
  {
    ExtensionIsWorkspace(path);
    Lower(Extension(path)) == ".workspace"
    || Contains(Lower(fileName), "workspace")
    || EndsWith(Lower(fileName), ".msgpack")
  }

  /** A path's extension is `.workspace`, in any case, exactly when the lower-cased path ends in it. */
  lemma ExtensionIsWorkspace(path: string)
    ensures Lower(Extension(path)) == ".workspace" <==> EndsWith(Lower(path), ".workspace")
  {
    var ext := Extension(path);
    if Lower(ext) == ".workspace" {
      var k := |path| - |ext|;
      assert path[k..] == ext;
      LowerSlice(path, k);
    }
    if EndsWith(Lower(path), ".workspace") {
      assert ".workspace" == "." + "workspace";
      ExtensionOfSuffix(Lower(path), "workspace");
      ExtensionLower(path);
    }
  }

  /** The classification ignores letter case in both the path and the name. */
  lemma IsWorkspaceFileIgnoresCase(path: string, fileName: string)
    ensures IsWorkspaceFile(Lower(path), Lower(fileName)) <==> IsWorkspaceFile(path, fileName)
  {
    LowerIdempotent(path);
    LowerIdempotent(fileName);
  }

  // ---------------------------------------------------------------------------
  // The directory tree

  /**
   * How far enumerating a directory gets: both listings succeed, listing
   * the sub-directories throws (so nothing is listed), or only listing the
   * files throws.
   */
  datatype Listing = Listed | DirectoriesUnreadable | FilesUnreadable

  /**
   * A directory as the file system reports it: its sub-directories and its
   * files, in enumeration order, and whether enumerating them throws.
   */
  datatype FsDir = FsDir(path: string, subDirs: seq<FsDir>, files: seq<string>, listing: Listing)

  /** A node of the directory tree. */
  datatype ExperimentItem = ExperimentItem(name: string, fullPath: string, isDirectory: bool, children: seq<ExperimentItem>)

  /** The sort key of a sub-directory: its name. */
  function DirName(d: FsDir): string {
    FileName(d.path)
  }

  /** The leaf shown for a file. */
  function FileLeaf(file: string): (item: ExperimentItem)
    ensures !item.isDirectory && item.children == [] && item.fullPath == file && item.name == FileName(file)
  {
    ExperimentItem(FileName(file), file, false, [])
  }

  /** The tree shown for directory `d`: a directory node named after its last path segment. */
  function DirectoryTree(d: FsDir): ExperimentItem
    decreases d, 2
  {
    ExperimentItem(FileName(d.path), d.path, true, DirectoryChildren(d))
  }

  /**
   * The children of `d`'s node: the trees of its sub-directories by name,
   * then its files by name. When the sub-directories cannot be listed there
   * are no children; when only the files cannot be, the sub-directories stay.
   */
  function DirectoryChildren(d: FsDir): (children: seq<ExperimentItem>)
    ensures |children| == DirCount(d) + FileCount(d)
    decreases d, 1
  {
    if d.listing == DirectoriesUnreadable then []
    else
      SortBySorted(d.subDirs, DirName);
      SubTrees(d, SortBy(d.subDirs, DirName))
      + if d.listing == FilesUnreadable then [] else Leaves(SortBy(d.files, FileName))
  }

  /** The trees of `dirs`, sub-directories of `d`, in order. */
  function SubTrees(d: FsDir, dirs: seq<FsDir>): (trees: seq<ExperimentItem>)
    requires multiset(dirs) <= multiset(d.subDirs)
    ensures |trees| == |dirs|
    decreases d, 0, |dirs|
  {
    if dirs == [] then []
    else
      var last := dirs[|dirs| - 1];
      assert last in multiset(dirs);
      assert multiset(dirs[..|dirs| - 1]) <= multiset(dirs) by {
        assert dirs == dirs[..|dirs| - 1] + [last];
      }
      SubTrees(d, dirs[..|dirs| - 1]) + [DirectoryTree(last)]
  }

  /** The leaves of `files`, in order. */
  function Leaves(files: seq<string>): (leaves: seq<ExperimentItem>)
    ensures |leaves| == |files|
    ensures forall i :: 0 <= i < |files| ==> leaves[i] == FileLeaf(files[i])
  {
    seq(|files|, i requires 0 <= i < |files| => FileLeaf(files[i]))
  }

  /** Builds the tree of `d` recursively, adding sub-directories first and then files. */
  method LoadDirectory(d: FsDir) returns (item: ExperimentItem)
    ensures item == DirectoryTree(d)
    decreases d, 2
  {
    var children: seq<ExperimentItem> := [];
    if d.listing != DirectoriesUnreadable {
      var subs := SortBy(d.subDirs, DirName);
      SortBySorted(d.subDirs, DirName);
      children := LoadSubTrees(d, subs);
      if d.listing != FilesUnreadable {
        var leaves := LoadLeaves(SortBy(d.files, FileName));
        children := children + leaves;
      }
    }
    item := ExperimentItem(FileName(d.path), d.path, true, children);
  }

  /** Adds the trees of the sub-directories `dirs` of `d`, one by one. */
  method LoadSubTrees(d: FsDir, dirs: seq<FsDir>) returns (children: seq<ExperimentItem>)
    requires multiset(dirs) <= multiset(d.subDirs)
    ensures children == SubTrees(d, dirs)
    decreases d, 1
  {
    children := [];
    for i := 0 to |dirs|
      invariant multiset(dirs[..i]) <= multiset(d.subDirs)
      invariant children == SubTrees(d, dirs[..i])
    {
      assert dirs[..i + 1] == dirs[..i] + [dirs[i]];
      assert dirs == dirs[..i + 1] + dirs[i + 1..];
      assert dirs[i] in multiset(dirs);
      var child := LoadDirectory(dirs[i]);
      assert dirs[..i + 1][..i] == dirs[..i];
      children := children + [child];
    }
    assert dirs[..|dirs|] == dirs;
  }

  /** Adds a leaf for each file, one by one. */
  method LoadLeaves(files: seq<string>) returns (leaves: seq<ExperimentItem>)
    ensures leaves == Leaves(files)
  {
    leaves := [];
    for i := 0 to |files|
      invariant leaves == Leaves(files[..i])
    {
      leaves := leaves + [FileLeaf(files[i])];
    }
    assert files[..|files|] == files;
  }

  /** The `i`th tree of `SubTrees` is the tree of the `i`th directory. */
  lemma {:induction false} SubTreesAt(d: FsDir, dirs: seq<FsDir>)
    requires multiset(dirs) <= multiset(d.subDirs)
    ensures forall i :: 0 <= i < |dirs| ==> SubTrees(d, dirs)[i] == DirectoryTree(dirs[i])
    decreases |dirs|
  {
    if dirs != [] {
      var init, last := dirs[..|dirs| - 1], dirs[|dirs| - 1];
      assert dirs == init + [last];
      assert multiset(init) <= multiset(dirs);
      SubTreesAt(d, init);
      var all, front := SubTrees(d, dirs), SubTrees(d, init);
      assert all == front + [DirectoryTree(last)];
      forall i | 0 <= i < |dirs| ensures all[i] == DirectoryTree(dirs[i]) {
        if i < |init| {
          assert all[i] == front[i] && dirs[i] == init[i];
        }
      }
    }
  }

  /** The number of sub-directory children of `d`'s node. */
  function DirCount(d: FsDir): nat {
    if d.listing == DirectoriesUnreadable then 0 else |d.subDirs|
  }

  /** The number of file children of `d`'s node. */
  function FileCount(d: FsDir): nat {
    if d.listing == Listed then |d.files| else 0
  }

  /**
   * A directory node's children start with its sub-directories, each once
   * and ascending by name, as directory nodes built the same way.
   */
  lemma DirectoryChildrenDirs(d: FsDir)
    ensures d.listing != DirectoriesUnreadable ==>
              exists p :: multiset(p) == multiset(d.subDirs) && SortedBy(p, DirName) && |p| == |d.subDirs|
                          && forall i :: 0 <= i < |p| ==> DirectoryChildren(d)[i] == DirectoryTree(p[i])
  {
    if d.listing != DirectoriesUnreadable {
      var p := SortBy(d.subDirs, DirName);
      SortBySorted(d.subDirs, DirName);
      SubTreesAt(d, p);
    }
  }

  /** A fully listed directory's children are its sub-directory trees followed by its file leaves, both by name. */
  lemma ListedChildren(d: FsDir)
    requires d.listing == Listed
    ensures multiset(SortBy(d.subDirs, DirName)) <= multiset(d.subDirs)
    ensures DirectoryChildren(d) == SubTrees(d, SortBy(d.subDirs, DirName)) + Leaves(SortBy(d.files, FileName))
  {
    SortBySorted(d.subDirs, DirName);
  }

  /** After the sub-directories come the files, each once and ascending by name, as leaves. */
  lemma DirectoryChildrenFiles(d: FsDir)
    requires d.listing == Listed
    ensures exists q :: multiset(q) == multiset(d.files) && SortedBy(q, FileName) && |q| == |d.files|
                        && forall i :: 0 <= i < |q| ==> DirectoryChildren(d)[|d.subDirs| + i] == FileLeaf(q[i])
  {
    var q := SortBy(d.files, FileName);
    SortBySorted(d.files, FileName);
    ListedChildren(d);
    var children, leaves := DirectoryChildren(d), Leaves(q);
    forall i | 0 <= i < |q| ensures children[|d.subDirs| + i] == FileLeaf(q[i]) {
      assert children[|d.subDirs| + i] == leaves[i];
    }
  }

  /** The first `DirCount(d)` children are directories, ascending by name. */
  lemma DirectoryNamesAscend(d: FsDir)
    ensures var children := DirectoryChildren(d);
            && (forall i :: 0 <= i < DirCount(d) ==> children[i].isDirectory)
            && (forall i, j :: 0 <= i < j < DirCount(d) ==> Le(children[i].name, children[j].name))
  {
    if d.listing != DirectoriesUnreadable {
      DirectoryChildrenDirs(d);
      var children := DirectoryChildren(d);
      var p :| multiset(p) == multiset(d.subDirs) && SortedBy(p, DirName) && |p| == |d.subDirs|
               && forall i :: 0 <= i < |p| ==> children[i] == DirectoryTree(p[i]);
      forall i | 0 <= i < |p| ensures children[i].isDirectory && children[i].name == DirName(p[i]) {
        assert children[i] == DirectoryTree(p[i]);
      }
      forall i, j | 0 <= i < j < |p| ensures Le(children[i].name, children[j].name) {
        assert Le(DirName(p[i]), DirName(p[j]));
      }
    }
  }

  /** The children after the first `DirCount(d)` are files, ascending by name. */
  lemma FileNamesAscend(d: FsDir)
    ensures var children := DirectoryChildren(d);
            && (forall i :: DirCount(d) <= i < |children| ==> !children[i].isDirectory)
            && (forall i, j :: DirCount(d) <= i < j < |children| ==> Le(children[i].name, children[j].name))
  {
    if d.listing == Listed {
      var q := SortBy(d.files, FileName);
      SortBySorted(d.files, FileName);
      ListedChildren(d);
      var children, n, leaves := DirectoryChildren(d), |d.subDirs|, Leaves(q);
      forall i | n <= i < |children| ensures children[i] == FileLeaf(q[i - n]) {
        assert children[i] == leaves[i - n];
      }
      forall i, j | n <= i < j < |children| ensures Le(children[i].name, children[j].name) {
        assert children[i].name == FileName(q[i - n]) && children[j].name == FileName(q[j - n]);
      }
    }
  }

  // ---------------------------------------------------------------------------
  // The experiment view-model

  /** What the tree view reports as selected: a directory item, some other object, or nothing. */
  datatype SelectedObject = DirectoryItem(item: ExperimentItem) | OtherObject | NullObject

  /** The tab that opening `item` adds: headed by the file name, with a workspace view or a plain viewer. */
  function NewTab(item: ExperimentItem): (t: Tab)
    ensures t.header == item.name && ShowsPath(t, item.fullPath)
    ensures t.content.WorkspaceContent? <==> IsWorkspaceFile(item.fullPath, item.name)
  {
    if IsWorkspaceFile(item.fullPath, item.name) then Tab(item.name, WorkspaceContent(item.fullPath))
    else Tab(item.name, FileViewerContent(Some(item.fullPath)))
  }

  class ExperimentViewModel {
    var canOpenSelectedFile: bool
    var experimentName: Option<string>
    var experimentPath: Option<string>
    var root: Option<ExperimentItem>
    var selectedFileItem: Option<ExperimentItem>
    var fileTabs: seq<Tab>
    var selectedFileTab: Option<Tab>

    constructor ()
      ensures !canOpenSelectedFile && experimentName.None? && experimentPath.None? && root.None?
      ensures selectedFileItem.None? && fileTabs == [] && selectedFileTab.None?
    {
      canOpenSelectedFile := false;
      experimentName := None;
      experimentPath := None;
      root := None;
      selectedFileItem := None;
      fileTabs := [];
      selectedFileTab := None;
    }

    /** The tree view's selection callback: keeps a directory item, and allows opening it only when it is a file. */
    method SelectionAction(obj: SelectedObject)
      modifies this`selectedFileItem, this`canOpenSelectedFile
      ensures selectedFileItem == if obj.DirectoryItem? then Some(obj.item) else None
      ensures canOpenSelectedFile <==> obj.DirectoryItem? && !obj.item.isDirectory
    {
      selectedFileItem := if obj.DirectoryItem? then Some(obj.item) else None;
      canOpenSelectedFile := selectedFileItem.Some? && !selectedFileItem.value.isDirectory;
    }

    /**
     * Sets the experiment path, `fs` being the directory it names. A new
     * non-empty path rebuilds the tree and closes every file tab; the same
     * path, a null one or an empty one leaves the tree and the tabs alone.
     */
    method SetExperimentPath(value: Option<string>, fs: FsDir)
      requires !IsNullOrEmpty(value) ==> fs.path == value.value
      modifies this`experimentPath, this`root, this`fileTabs
      ensures experimentPath == value
      ensures if value != old(experimentPath) && !IsNullOrEmpty(value)
              then root == Some(DirectoryTree(fs)) && fileTabs == []
              else root == old(root) && fileTabs == old(fileTabs)
    {
      if value != experimentPath {
        experimentPath := value;
        OnExperimentPathChanged(value, fs);
      }
    }

    method OnExperimentPathChanged(value: Option<string>, fs: FsDir)
      requires !IsNullOrEmpty(value) ==> fs.path == value.value
      modifies this`root, this`fileTabs
      ensures if !IsNullOrEmpty(value)
              then root == Some(DirectoryTree(fs)) && fileTabs == []
              else root == old(root) && fileTabs == old(fileTabs)
    {
      if IsNullOrEmpty(value) {
        return;
      }
      var tree := LoadDirectory(fs);
      root := Some(tree);
      fileTabs := [];
    }

    /**
     * Opens the selected file: nothing happens without a selected file; a
     * tab already showing its path is selected again; otherwise a new tab for
     * it is appended and selected.
     */
    method OpenSelectedFile()
      modifies this`fileTabs, this`selectedFileTab
      ensures selectedFileItem.None? || selectedFileItem.value.isDirectory ==>
                fileTabs == old(fileTabs) && selectedFileTab == old(selectedFileTab)
      ensures selectedFileItem.Some? && !selectedFileItem.value.isDirectory ==>
                var path := selectedFileItem.value.fullPath;
                var k := FirstShowing(old(fileTabs), path);
                if k < |old(fileTabs)|
                then fileTabs == old(fileTabs) && selectedFileTab == Some(old(fileTabs)[k])
                else fileTabs == old(fileTabs) + [NewTab(selectedFileItem.value)]
                     && selectedFileTab == Some(NewTab(selectedFileItem.value))
    {
      if selectedFileItem.None? || selectedFileItem.value.isDirectory {
        return;
      }
      var item := selectedFileItem.value;
      var existing := FindTabShowing(fileTabs, item.fullPath);
      if existing.Some? {
        selectedFileTab := existing;
        return;
      }
      var newTab := NewTab(item);
      fileTabs := fileTabs + [newTab];
      selectedFileTab := Some(newTab);
    }

    /** Closes a tab: its first occurrence is removed. */
    method CloseFileTab(tab: Tab)
      modifies this`fileTabs
      ensures fileTabs == RemoveFirst(old(fileTabs), tab)
    {
      fileTabs := RemoveFirst(fileTabs, tab);
    }
  }

  /**
   * Opening a file twice adds one tab: after a new tab for `item` has been
   * appended, the next opening of `item` finds that tab (or an earlier one
   * showing the same path) and appends nothing.
   */
  lemma OpenTwiceReuses(tabs: seq<Tab>, item: ExperimentItem)
    requires FirstShowing(tabs, item.fullPath) == |tabs|
    ensures FirstShowing(tabs + [NewTab(item)], item.fullPath) == |tabs|
  {
    FirstShowingAppend(tabs, [NewTab(item)], item.fullPath);
  }
}
