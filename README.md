# Dropdown filter for a list view: a Dafny model

This project models the core of a Mendix widget that adds a dropdown filter to a
list view already on the page. The widget does not draw the list. On each page
navigation it finds the target list view through the host's widget registry. It
asks a configuration validator whether the setup fits, and it shows the dropdown
only when the validator is satisfied. After that, each selection rewrites the
target's query constraints, and the widget asks the target to refresh.

A selection goes down one of two channels:

- An **attribute filter** writes the list view's `_datasource._constraints`.
  On a device (`window.device`) it writes a one-entry structured list of the
  form `{attribute, operator, path: entity, value}`. Otherwise it writes the
  XPath text `[method(attribute,'value')]`. The empty string `""` gives the empty
  list or the empty text. The target is refreshed once inside the constraint
  update and again after it, so twice in all. When the list view has no
  `_datasource`, nothing is written and the target is refreshed once.
- An **XPath filter** copies the configured constraint unchanged into
  `datasource.xpathConstraints`. The target is refreshed once.

The value `"(empty)"` is the dropdown's "no selection". It only sets the
widget's own `value` state to `""`. It does not write to the target and does
not refresh it.

Neither channel clears the other. An XPath constraint and an attribute
constraint can therefore be in force on the target at the same time.

Modules:

- `Wrappers`: `Option`.
- `Constraints` (pure): the data shapes (`FilterProps`, `ConstraintEntry`,
  the tagged variant `HybridConstraint` = `Structured(list) | Textual(string)`),
  the translation `AttributeConstraint`, and a decoder `ParseTextual` for the
  textual form. It also holds `Change`, the effect of one change event on a
  target's query state (`TargetView`), which the container's `HandleChange` is
  proved against.
- `ListViews`: the host's list view as a class. It has the XPath constraint,
  an optional `_datasource` object holding `_constraints`, and a counter for
  `update()` calls.
- `DropdownFilterContainer`: the class `Container` with the component state
  (`widgetAvailable`, `targetNode`, `targetListView`, `validationPassed`,
  `value`) and the methods `HandleChange`, `UpdateByConstraint`,
  `UpdateByXpath` and `InitDropdownFilter`. `DropdownShown` is the rendering
  decision.
- `Scenarios`: client methods that build a page, bind, change the filter and
  state the resulting target state.

The host's collaborators are parameters of the model:

- `window.device` is a `device: bool` argument.
- The container's parent DOM node (`findDOMNode(this).parentNode`) is a `scope` node.
- `ValidateConfigs.findTargetNode` is a function argument `locate`.
- `dijitRegistry.byNode` is a map `registry` from nodes to list views.
- `ValidateConfigs.validate` is a function argument `validator` from a
  `ValidateRequest` to an optional message.

Behaviour of the code that the model keeps as written:

- An attribute change on a list view with a `_datasource` calls `update()`
  twice (src/components/DropdownFilterContainer.ts:128 and :103).
- The sentinel writes nothing at all. Only the empty string `""` clears the
  constraint.
- A failed lookup keeps the earlier `targetNode` and `targetListView`. The
  validator is still given only what the current attempt found.
- `validationPassed` is `!validateMessage` in JavaScript. So an empty message
  `""` counts as a pass, just like no message.
- A non-sentinel change does not update the widget's `value` state.
- The value is put between the quotes of `'value'` as it is, with no escaping
  of `'` (src/components/DropdownFilterContainer.ts:125). A value holding a
  quote therefore gives text that is not one XPath string literal.

## Model

| member | source | states |
|---|---|---|
| `Constraints.AttributeConstraint` | src/components/DropdownFilterContainer.ts:115-126 | the structured form is chosen exactly in device mode; the result is empty exactly when the value is `""`; with a value in device mode it is one entry carrying attribute, operator = filter method, path = entity and value; with a value in web mode it is the text `[method(attribute,'value')]` |
| `Constraints.ParseTextualRoundTrip` | src/components/DropdownFilterContainer.ts:125-126 | decoding the textual constraint returns exactly the method, attribute and value it was built from (given a method without `(` and an attribute without `,`) |
| `Constraints.ParseTextualSound` | src/components/DropdownFilterContainer.ts:125-126 | every string the decoder accepts is the textual constraint of what it decodes to, with a decodable method and attribute |
| `Constraints.ConfiguredFilterRoundTrip` | src/components/DropdownFilterContainer.ts:125-126 | for either configured method (`equals`, `contains`, line 27) and an attribute without `,`, the textual constraint is decodable and decodes back to exactly that method, attribute and value |
| `Constraints.TextualConstraintInjective` | src/components/DropdownFilterContainer.ts:125-126 | two decodable filters giving the same textual constraint have the same method, attribute and value |
| `Constraints.Change` | src/components/DropdownFilterContainer.ts:94-129 | one change event: the sentinel leaves the target as it was; an XPath change sets the XPath constraint to the given text and leaves `_constraints` alone; an attribute change leaves the XPath constraint alone and, when there is a datasource, sets `_constraints` to the translation; whether a datasource exists never changes; the refresh count rises by 0, 2 or 1 |
| `Constraints.ChangeTwice` | src/components/DropdownFilterContainer.ts:103-128 | full replace, not append: repeating a change event leaves both constraint fields as one event left them, and only the refresh count rises again by the same amount |
| `Constraints.TextualExample` | src/components/DropdownFilterContainer.ts:124-126 | `Status`, `Open`, `equals` in web mode translate to `[equals(Status,'Open')]` |
| `ListViews.ListView.Update` | src/components/DropdownFilterContainer.ts:45 | each `update()` call raises the refresh count by one |
| `DropdownFilterContainer.Container.constructor` | src/components/DropdownFilterContainer.ts:58-64 | the initial state is `widgetAvailable` with everything else unset, the state invariant holds, the dropdown is hidden and the render-time validator request is not strict |
| `DropdownFilterContainer.Container.DropdownShown` | src/components/DropdownFilterContainer.ts:83-92 | the dropdown is rendered exactly when validation recorded a pass; under the state invariant (`Valid`: a verdict is recorded exactly when a binding attempt completed) it is never rendered before a binding attempt |
| `DropdownFilterContainer.Container.RenderValidateRequest` | src/components/DropdownFilterContainer.ts:71-78 | the render-time validator request carries the props, the stored target node and list view, and under the state invariant is strict exactly once a verdict is recorded |
| `DropdownFilterContainer.Container.HandleChange` | src/components/DropdownFilterContainer.ts:94-105 | the target's query state after the call is `Change` of the state before it, the datasource object is the same, and the widget's value becomes `""` exactly for the sentinel and is otherwise kept; the state invariant is preserved |
| `DropdownFilterContainer.Container.UpdateByXpath` | src/components/DropdownFilterContainer.ts:107-109 | the target's XPath constraint becomes the given constraint, and nothing else changes |
| `DropdownFilterContainer.Container.UpdateByConstraint` | src/components/DropdownFilterContainer.ts:111-130 | with a target and datasource, `_constraints` becomes `AttributeConstraint` of the arguments and the target is refreshed once; without a datasource nothing changes; the XPath constraint is never touched |
| `DropdownFilterContainer.Container.InitDropdownFilter` | src/components/DropdownFilterContainer.ts:132-152 | after binding `widgetAvailable` is false; the node is replaced only when located, and the list view only when the registry holds one for that node; the validator is asked strictly (`validate = true`) with the node and list view of this attempt; `validationPassed` records its verdict (a pass exactly when there is no message or the message is empty, the `!validateMessage` of line 151), the dropdown is shown exactly when it passed, and the state invariant holds |
| `Scenarios.AttributeFilter` | src/components/DropdownFilterContainer.ts:111-129 | binding then selecting `Status = Open` writes the one-entry list (device) or `[equals(Status,'Open')]` (web), leaves the XPath constraint, and refreshes twice |
| `Scenarios.ClearSelection` | src/components/DropdownFilterContainer.ts:95-96 | a sentinel selection after an attribute selection keeps the constraint and refresh count and sets the value to `""` |
| `Scenarios.BothChannels` | src/components/DropdownFilterContainer.ts:98-109 | an XPath selection and an attribute selection each land in their own field, with three refreshes in all |
| `Scenarios.NoDataSource` | src/components/DropdownFilterContainer.ts:113 | with no `_datasource` an attribute selection writes nothing and refreshes once |
| `Scenarios.TargetNotFound` | src/components/DropdownFilterContainer.ts:133-151 | when no target node is found the container stays unbound, and validation and the dropdown follow the validator's verdict alone |
| `Scenarios.RebindKeepsTarget` | src/components/DropdownFilterContainer.ts:137-142 | a second navigation that finds nothing keeps the first node and list view, while the new failing verdict hides the dropdown |

## Left out

- React rendering (`render`, `createElement`, `classNames`, `findDOMNode`): only the decision of `renderDropdownFilter` is modelled, as `DropdownShown`, and the `validate: !widgetAvailable` flag as `RenderValidateRequest`.
- `setState` timing: React batches state updates and applies them later; here each `setState` is an immediate assignment of the named fields.
- The navigation subscription (`dojoConnect.connect`, `dojoLang.hitch`): a call into the host; the host calls `InitDropdownFilter` on each navigation.
- `ValidateConfigs` (`findTargetNode`, `validate`) is not part of this model; both are uninterpreted function arguments.
- The `DropdownFilter` presentation component is not part of this model; its change events are the arguments of `HandleChange`.
- The `mxform` property is not modelled. The code uses it for the subscription, and `...this.props` also spreads it into the validator's arguments (src/components/DropdownFilterContainer.ts:145) and into the render-time `ValidateConfigs` props (:72). The model's `Props` and `ValidateRequest` omit it.
- The list view's `datasource` object (src/components/DropdownFilterContainer.ts:32-34), which holds `xpathConstraints`, is folded into the field `ListView.xpathConstraints`. The model takes it to be always present; the code would throw at :108 on a list view without one.
- The unused list view members (`_loadMore`, `_onLoad`, `_renderData`, `_setSize`, `_pageSize`, `atEnd`, `_entity`) are not modelled.
- `HybridConstraint` declares `path` optional; the code always sets it, so `ConstraintEntry.path` is a plain string.
- HandleChange: requires a target list view for every non-sentinel value, because the code then calls `update()` on it (and `updateByXpath` writes through it) and would throw in JavaScript without one; that crash is not modelled.
- UpdateByXpath: requires a target list view for the same reason.
- `ParseTextual` is not in the code. It is a decoder for the textual constraint, so that the encoding's faithfulness can be stated. It inverts the template `[method(attribute,'value')]`, not XPath: it takes everything between `,'` and the final `')]` as the value, quotes included, so its round trip also holds for values such as `O'Brien')]` that break the XPath literal.
