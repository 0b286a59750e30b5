/**
 * The host's list view as far as the filter uses it: the XPath constraint of
 * its `datasource`, the `_constraints` of its optional `_datasource`, and its
 * `update()` refresh, counted.
 */
module ListViews {

  import opened Wrappers
  import opened Constraints

  /** The list view's `_datasource` object, which holds `_constraints`. */
  class DataSource {
    var constraints: HybridConstraint

    constructor (constraints: HybridConstraint)
      ensures this.constraints == constraints
    {
      this.constraints := constraints;
    }
  }

  class ListView {
    /** `datasource.xpathConstraints`. */
    var xpathConstraints: string
    /** `_datasource`, which may be absent. */
    var dataSource: DataSource?
    /** How many times `update()` has been called. */
    var updates: nat

    constructor (xpathConstraints: string, dataSource: DataSource?)
      ensures this.xpathConstraints == xpathConstraints && this.dataSource == dataSource && updates == 0
    {
      this.xpathConstraints := xpathConstraints;
      this.dataSource := dataSource;
      updates := 0;
    }

    /** The query state the filter reads and writes. */
    function View(): (view: TargetView)
      reads this, dataSource
    {
      TargetView(xpathConstraints, if dataSource == null then None else Some(dataSource.constraints), updates)
    }

    /** `update()`: the list view re-runs its query; only the count is modelled. */
    method Update()
      modifies this`updates
      ensures updates == old(updates) + 1
    {
      updates := updates + 1;
    }
  }
}
