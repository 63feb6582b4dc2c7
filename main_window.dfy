/**
 * The main window (MainWindowVm): a list of tabs that starts with the
 * projects tab and grows by one experiment tab per experiment opened.
 */
module MainWindow {
  import opened Wrappers
  import opened Strings
  import opened Tabs

  /** The tab the window starts with. */
  function ProjectsTab(): Tab {
    Tab("Projects", ProjectsContent)
  }

  /** The tab shown for experiment `name`: headed by the name, with an experiment view of that name. */
  function ExperimentTab(name: string): (t: Tab)
    ensures t.header == name && t.content == ExperimentContent(name)
  {
    Tab(name, ExperimentContent(name))
  }

  /**
   * The tabs after opening experiment `name`: unchanged for a null or empty
   * name, otherwise the same tabs followed by one new experiment tab.
   */
  function Opened(tabs: seq<Tab>, name: Option<string>): (r: seq<Tab>)
    ensures IsNullOrEmpty(name) ==> r == tabs
    ensures !IsNullOrEmpty(name) ==> |r| == |tabs| + 1 && r[..|tabs|] == tabs && r[|tabs|] == ExperimentTab(name.value)
  {
    if IsNullOrEmpty(name) then tabs else tabs + [ExperimentTab(name.value)]
  }

  class MainWindowVm {
    var tabs: seq<Tab>

    constructor ()
      ensures tabs == [ProjectsTab()]
    {
      tabs := [ProjectsTab()];
    }

    method OpenExperiment(experimentName: Option<string>)
      modifies this`tabs
      ensures tabs == Opened(old(tabs), experimentName)
    {
      if IsNullOrEmpty(experimentName) {
        return;
      }
      var expTab := ExperimentTab(experimentName.value);
      tabs := tabs + [expTab];
    }
  }

  /**
   * Experiment tabs are not de-duplicated: opening the same experiment twice
   * adds two equal tabs, and the tabs before them stay as they were.
   */
  lemma OpenTwiceDuplicates(tabs: seq<Tab>, name: string)
    requires name != ""
    ensures var r := Opened(Opened(tabs, Some(name)), Some(name));
            && |r| == |tabs| + 2 && r[..|tabs|] == tabs
            && r[|tabs|] == r[|tabs| + 1] == ExperimentTab(name)
  {
    var once := Opened(tabs, Some(name));
    assert once[..|tabs|] == tabs;
    assert Opened(once, Some(name))[..|tabs|] == once[..|once|][..|tabs|];
  }

  /** The projects tab is never displaced: it stays first whatever experiments are opened. */
  lemma {:induction false} ProjectsTabStaysFirst(names: seq<Option<string>>)
    ensures OpenedAll([ProjectsTab()], names)[0] == ProjectsTab()
    decreases |names|
  {
    if names != [] {
      ProjectsTabStaysFirst(names[..|names| - 1]);
    }
  }

  /** The tabs after opening each of `names` in turn. */
  function OpenedAll(tabs: seq<Tab>, names: seq<Option<string>>): (r: seq<Tab>)
    ensures |r| >= |tabs|
    decreases |names|
  {
    if names == [] then tabs else Opened(OpenedAll(tabs, names[..|names| - 1]), names[|names| - 1])
  }
}
