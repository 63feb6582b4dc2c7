/**
 * Tabs of the main window and of an experiment window. A tab has a header
 * and a content view-model; the content is described by what identifies it:
 * the projects list, an experiment by name, a plain file viewer or a
 * workspace parameters view by file path. Tabs are compared by value.
 */
module Tabs {
  import opened Wrappers

  /** The content view-model of a tab. */
  datatype Content =
    | ProjectsContent
    | ExperimentContent(experimentName: string)
    | FileViewerContent(viewerPath: Option<string>)
    | WorkspaceContent(workspacePath: string)

  datatype Tab = Tab(header: string, content: Content)

  /** The tab shows the file at `path`, in a file viewer or a workspace view. */
  predicate ShowsPath(t: Tab, path: string) {
    (t.content.FileViewerContent? && t.content.viewerPath == Some(path))
    || (t.content.WorkspaceContent? && t.content.workspacePath == path)
  }

  /** The position of the first tab showing `path`, or `|tabs|` when there is none. */
  function FirstShowing(tabs: seq<Tab>, path: string): (i: nat)
    ensures i <= |tabs|
    decreases |tabs|
  {
    if tabs == [] then 0
    else if ShowsPath(tabs[0], path) then 0
    else 1 + FirstShowing(tabs[1..], path)
  }

  /** `FirstShowing` finds the first tab showing `path`: no earlier tab shows it, and none at all when it reaches the end. */
  lemma {:induction false} FirstShowingIsFirst(tabs: seq<Tab>, path: string)
    ensures forall j :: 0 <= j < FirstShowing(tabs, path) ==> !ShowsPath(tabs[j], path)
    ensures FirstShowing(tabs, path) < |tabs| ==> ShowsPath(tabs[FirstShowing(tabs, path)], path)
    decreases |tabs|
  {
    if tabs != [] && !ShowsPath(tabs[0], path) {
      FirstShowingIsFirst(tabs[1..], path);
      forall j | 1 <= j < FirstShowing(tabs, path) ensures !ShowsPath(tabs[j], path) {
        assert tabs[j] == tabs[1..][j - 1];
      }
    }
  }

  /** Searching a concatenation searches the second part only when the first has no tab showing `path`. */
  lemma {:induction false} FirstShowingAppend(a: seq<Tab>, b: seq<Tab>, path: string)
    ensures FirstShowing(a + b, path)
            == if FirstShowing(a, path) < |a| then FirstShowing(a, path) else |a| + FirstShowing(b, path)
    decreases |a|
  {
    if a != [] {
      assert (a + b)[0] == a[0];
      assert (a + b)[1..] == a[1..] + b;
      FirstShowingAppend(a[1..], b, path);
    } else {
      assert a + b == b;
    }
  }

  /** `FirstOrDefault` over the tabs, for the tab showing `path`. */
  method FindTabShowing(tabs: seq<Tab>, path: string) returns (found: Option<Tab>)
    ensures FirstShowing(tabs, path) < |tabs| ==> found == Some(tabs[FirstShowing(tabs, path)])
    ensures FirstShowing(tabs, path) == |tabs| ==> found.None?
  {
    for i := 0 to |tabs|
      invariant FirstShowing(tabs, path) == i + FirstShowing(tabs[i..], path)
    {
      assert tabs[i..][0] == tabs[i];
      if ShowsPath(tabs[i], path) {
        return Some(tabs[i]);
      }
      assert tabs[i..][1..] == tabs[i + 1..];
    }
    found := None;
  }

  /** The position of the first occurrence of `t`, or `|tabs|` when it does not occur. */
  function IndexOf(tabs: seq<Tab>, t: Tab): (i: nat)
    ensures i <= |tabs|
    decreases |tabs|
  {
    if tabs == [] then 0
    else if tabs[0] == t then 0
    else 1 + IndexOf(tabs[1..], t)
  }

  /** `Collection.Remove`: removes the first occurrence of `t`, if any. */
  function RemoveFirst(tabs: seq<Tab>, t: Tab): seq<Tab> {
    var i := IndexOf(tabs, t);
    if i < |tabs| then tabs[..i] + tabs[i + 1..] else tabs
  }

  /** `IndexOf` finds the first occurrence: no earlier tab equals `t`, and it reaches the end only when `t` is absent. */
  lemma {:induction false} IndexOfIsFirst(tabs: seq<Tab>, t: Tab)
    ensures IndexOf(tabs, t) < |tabs| <==> t in tabs
    ensures IndexOf(tabs, t) < |tabs| ==> tabs[IndexOf(tabs, t)] == t
    ensures forall j :: 0 <= j < IndexOf(tabs, t) ==> tabs[j] != t
    decreases |tabs|
  {
    if tabs != [] && tabs[0] != t {
      var rest := tabs[1..];
      IndexOfIsFirst(rest, t);
      assert tabs == [tabs[0]] + rest;
      forall j | 1 <= j < IndexOf(tabs, t) ensures tabs[j] != t {
        assert tabs[j] == rest[j - 1];
      }
    }
  }

  /** A tab that is not there leaves the tabs unchanged. */
  lemma RemoveFirstAbsent(tabs: seq<Tab>, t: Tab)
    requires t !in tabs
    ensures RemoveFirst(tabs, t) == tabs
  {
    IndexOfIsFirst(tabs, t);
  }

  /**
   * Removing a tab that is there takes out exactly one copy of it, the first
   * one, and keeps the other tabs in order.
   */
  lemma RemoveFirstPresent(tabs: seq<Tab>, t: Tab)
    requires t in tabs
    ensures |RemoveFirst(tabs, t)| == |tabs| - 1
    ensures multiset(RemoveFirst(tabs, t)) == multiset(tabs) - multiset{t}
  {
    IndexOfIsFirst(tabs, t);
    var i := IndexOf(tabs, t);
    var before, after := tabs[..i], tabs[i + 1..];
    assert tabs == before + [t] + after;
    assert multiset(tabs) == multiset(before) + multiset{t} + multiset(after);
  }
}
