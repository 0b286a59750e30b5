/**
 * Clients of the container that build a page, bind, and change the filter,
 * stating what the target's query state is afterwards. They use only the
 * contracts of the container and the list view.
 */
module Scenarios {

  import opened Wrappers
  import opened Constraints
  import opened ListViews
  import opened DropdownFilterContainer

  const Entity: string := "MyFirstModule.Ticket"

  /** A validator that reports nothing. */
  function NoProblem(r: ValidateRequest): (message: Option<string>) {
    None
  }

  /**
   * Binds a fresh container to a list view with a datasource and selects
   * `Status = Open`: the datasource gets the translation for the mode, the
   * XPath constraint is untouched, and the list view is refreshed twice.
   */
  method AttributeFilter(device: bool) returns (written: HybridConstraint, xpath: string, refreshes: nat)
    ensures device ==> written == Structured([ConstraintEntry("Status", "equals", Entity, "Open")])
    ensures !device ==> written == Textual("[equals(Status,'Open')]")
    ensures xpath == "[Closed = false()]"
    ensures refreshes == 2
  {
    var dataSource := new DataSource(Textual(""));
    var listView := new ListView("[Closed = false()]", dataSource);
    var container := new Container(Props(Entity, "grid", []));
    var node := NodeRef(2);
    container.InitDropdownFilter(NodeRef(1), (p, s) => Some(node), map[node := listView], NoProblem);
    container.HandleChange("Open", "Status", Attribute, "", "equals", device);
    TextualExample();
    written, xpath, refreshes := dataSource.constraints, listView.xpathConstraints, listView.updates;
  }

  /**
   * After an attribute selection, choosing the sentinel resets the container's
   * value and leaves the target exactly as it was.
   */
  method ClearSelection(device: bool) returns (written: HybridConstraint, refreshes: nat, value: Option<string>)
    ensures written == AttributeConstraint("Open", "Status", "equals", Entity, device)
    ensures refreshes == 2
    ensures value == Some("")
  {
    var dataSource := new DataSource(Textual(""));
    var listView := new ListView("", dataSource);
    var container := new Container(Props(Entity, "grid", []));
    var node := NodeRef(2);
    container.InitDropdownFilter(NodeRef(1), (p, s) => Some(node), map[node := listView], NoProblem);
    container.HandleChange("Open", "Status", Attribute, "", "equals", device);
    container.HandleChange(Sentinel, "Status", Attribute, "", "equals", device);
    written, refreshes, value := dataSource.constraints, listView.updates, container.value;
  }

  /**
   * An XPath selection followed by an attribute selection: each goes to its own
   * channel, and the XPath selection refreshes once.
   */
  method BothChannels() returns (written: HybridConstraint, xpath: string, refreshes: nat)
    ensures written == AttributeConstraint("ann", "Name", "contains", Entity, false)
    ensures xpath == "[Status = 'Open']"
    ensures refreshes == 3
  {
    var dataSource := new DataSource(Textual("[old(x,'y')]"));
    var listView := new ListView("", dataSource);
    var container := new Container(Props(Entity, "grid", []));
    var node := NodeRef(2);
    container.InitDropdownFilter(NodeRef(1), (p, s) => Some(node), map[node := listView], NoProblem);
    container.HandleChange("Open", "", XPath, "[Status = 'Open']", "equals", false);
    assert listView.View() == TargetView("[Status = 'Open']", Some(Textual("[old(x,'y')]")), 1);
    container.HandleChange("ann", "Name", Attribute, "", "contains", false);
    written, xpath, refreshes := dataSource.constraints, listView.xpathConstraints, listView.updates;
  }

  /**
   * A list view without `_datasource`: an attribute selection writes nothing and
   * refreshes only once.
   */
  method NoDataSource(value: string) returns (xpath: string, refreshes: nat)
    requires value != Sentinel
    ensures xpath == "" && refreshes == 1
  {
    var listView := new ListView("", null);
    var container := new Container(Props(Entity, "grid", []));
    var node := NodeRef(2);
    container.InitDropdownFilter(NodeRef(1), (p, s) => Some(node), map[node := listView], NoProblem);
    container.HandleChange(value, "Status", Attribute, "", "equals", false);
    xpath, refreshes := listView.xpathConstraints, listView.updates;
  }

  /**
   * The target node is not found: the container stays unbound, validation is
   * decided by the validator alone, and the dropdown is shown exactly when it
   * passes.
   */
  method TargetNotFound(verdict: Option<string>) returns (bound: bool, passed: Option<bool>, shown: bool)
    ensures !bound
    ensures passed == Some(verdict.None? || verdict.value == "")
    ensures shown <==> verdict.None? || verdict.value == ""
  {
    var container := new Container(Props(Entity, "grid", []));
    container.InitDropdownFilter(NodeRef(1), (p, s) => None, map[], r => verdict);
    bound, passed, shown := container.targetListView != null, container.validationPassed, container.DropdownShown();
  }

  /**
   * A second navigation that finds no list view keeps the first binding, and
   * the validator's new verdict replaces the old one.
   */
  method RebindKeepsTarget() returns (kept: bool, node: Option<NodeRef>, shown: bool)
    ensures kept && node == Some(NodeRef(2))
    ensures !shown
  {
    var listView := new ListView("", null);
    var container := new Container(Props(Entity, "grid", []));
    container.InitDropdownFilter(NodeRef(1), (p, s) => Some(NodeRef(2)), map[NodeRef(2) := listView], NoProblem);
    container.InitDropdownFilter(NodeRef(1), (p, s) => None, map[], r => Some("no list view found"));
    kept, node, shown := container.targetListView == listView, container.targetNode, container.DropdownShown();
  }
}
