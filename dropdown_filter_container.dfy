/**
 * The dropdown filter container: it binds to a target list view when the page
 * navigates, keeps the outcome of configuration validation, offers the
 * dropdown only when validation passed, and turns each selection change into
 * a write to the target's query state followed by a refresh.
 *
 * The host's collaborators are parameters: the node locator
 * (`ValidateConfigs.findTargetNode`), the widget registry (`dijitRegistry.byNode`),
 * the configuration validator (`ValidateConfigs.validate`), the container's
 * parent DOM node and the environment flag `window.device`.
 */
module DropdownFilterContainer {

  import opened Wrappers
  import opened Constraints
  import opened ListViews

  /** A DOM node, known only by identity. */
  datatype NodeRef = NodeRef(id: nat)

  /** The widget's configuration (`DropdownFilterContainerProps` without the form). */
  datatype Props = Props(entity: string, targetGridName: string, filters: seq<FilterProps>)

  /** What the configuration validator is given. */
  datatype ValidateRequest = ValidateRequest(
    props: Props,
    filterNode: Option<NodeRef>,
    targetListView: ListView?,
    validate: bool)

  class Container {
    const props: Props

    // `DropdownFilterState`
    var widgetAvailable: bool
    var targetNode: Option<NodeRef>
    var targetListView: ListView?
    var validationPassed: Option<bool>
    var value: Option<string>

    /** A binding attempt has completed exactly when a verdict is recorded. */
    ghost predicate Valid()
      reads this
    {
      !widgetAvailable <==> validationPassed.Some?
    }

    /** The initial state; subscribing to navigation is left to the host. */
    constructor (props: Props)
      ensures this.props == props
      ensures widgetAvailable && targetNode == None && targetListView == null
      ensures validationPassed == None && value == None
      ensures Valid()
      ensures !DropdownShown() && !RenderValidateRequest().validate
    {
      this.props := props;
      widgetAvailable := true;
      targetNode := None;
      targetListView := null;
      validationPassed := None;
      value := None;
    }

    /**
     * `renderDropdownFilter` renders the dropdown exactly when this holds: only on
     * a recorded pass, so never before a binding attempt.
     */
    function DropdownShown(): (shown: bool)
      reads this
      ensures shown <==> validationPassed == Some(true)
      ensures Valid() && shown ==> !widgetAvailable
    {
      validationPassed == Some(true)
    }

    /** The request `render` hands to `ValidateConfigs` on every render. */
    function RenderValidateRequest(): (r: ValidateRequest)
      reads this
      ensures r.props == props && r.filterNode == targetNode && r.targetListView == targetListView
      ensures Valid() ==> (r.validate <==> validationPassed.Some?)
    {
      ValidateRequest(props, targetNode, targetListView, !widgetAvailable)
    }

    /**
     * `handleChange`: the sentinel only resets the state's value; any other value
     * goes to the attribute channel or the XPath channel of the target, which is
     * then refreshed.
     */
    method HandleChange(value: string, attribute: string, filterBy: FilterBy, constraint: string, filterMethod: string, device: bool)
      requires value != Sentinel ==> targetListView != null
      modifies this`value, targetListView, if targetListView != null then targetListView.dataSource else null
      ensures this.value == if value == Sentinel then Some("") else old(this.value)
      ensures old(Valid()) ==> Valid()
      ensures targetListView != null ==>
        targetListView.dataSource == old(targetListView.dataSource) &&
        targetListView.View() ==
          Change(old(targetListView.View()), FilterChange(value, attribute, filterBy, constraint, filterMethod), props.entity, device)
    {
      if value == Sentinel {
        this.value := Some("");
      } else {
        if filterBy == Attribute {
          UpdateByConstraint(value, attribute, filterMethod, device);
        } else {
          UpdateByXpath(constraint);
        }
        targetListView.Update();
      }
    }

    /** `updateByXpath`: the raw constraint replaces the target's XPath constraint. */
    method UpdateByXpath(constraint: string)
      requires targetListView != null
      modifies targetListView`xpathConstraints
      ensures targetListView.xpathConstraints == constraint
    {
      targetListView.xpathConstraints := constraint;
    }

    /**
     * `updateByConstraint`: when the target has a datasource, its `_constraints`
     * is replaced by the translation of the filter and the target is refreshed;
     * otherwise nothing happens.
     */
    method UpdateByConstraint(value: string, attribute: string, filterMethod: string, device: bool)
      modifies targetListView, if targetListView != null then targetListView.dataSource else null
      ensures targetListView != null ==>
        targetListView.dataSource == old(targetListView.dataSource) &&
        targetListView.xpathConstraints == old(targetListView.xpathConstraints) &&
        if targetListView.dataSource == null then targetListView.updates == old(targetListView.updates)
        else
          targetListView.dataSource.constraints == AttributeConstraint(value, attribute, filterMethod, props.entity, device) &&
          targetListView.updates == old(targetListView.updates) + 1
    {
      var constraints: seq<ConstraintEntry> := [];
      if targetListView != null && targetListView.dataSource != null {
        var datasource := targetListView.dataSource;
        if device {
          constraints := constraints + [ConstraintEntry(attribute, filterMethod, props.entity, value)];
          datasource.constraints := if value != "" then Structured(constraints) else Structured([]);
        } else {
          var constraint := TextualFragment(filterMethod, attribute, value);
          datasource.constraints := if value != "" then Textual("[" + constraint + "]") else Textual("");
        }
        targetListView.Update();
      }
    }

    /**
     * `initDropdownFilter`, run on each navigation: locate the target node from
     * the container's parent node, look its list view up, validate strictly,
     * and merge what was found into the state. A node or list view that is not
     * found leaves the earlier one in place; the validator sees only what this
     * attempt found.
     */
    method InitDropdownFilter(
      scope: NodeRef,
      locate: (Props, NodeRef) -> Option<NodeRef>,
      registry: map<NodeRef, ListView>,
      validator: ValidateRequest -> Option<string>)
      modifies this
      ensures var found := locate(props, scope);
        var listView: ListView? := if found.Some? && found.value in registry then registry[found.value] else null;
        var message := validator(ValidateRequest(props, found, listView, true));
        && !widgetAvailable
        && targetNode == (if found.Some? then found else old(targetNode))
        && targetListView == (if listView != null then listView else old(targetListView))
        && validationPassed == Some(message.None? || message.value == "")
        && (DropdownShown() <==> message.None? || message.value == "")
        && value == old(value)
      ensures RenderValidateRequest().validate
      ensures Valid()
    {
      var found := locate(props, scope);
      var listView: ListView? := null;
      if found.Some? {
        targetNode := found;
        if found.value in registry {
          listView := registry[found.value];
        }
        if listView != null {
          targetListView := listView;
        }
      }
      var validateMessage := validator(ValidateRequest(props, found, listView, true));
      // `!validateMessage`: no message, or the empty message, is a pass.
      widgetAvailable, validationPassed := false, Some(validateMessage.None? || validateMessage.value == "");
    }
  }
}
