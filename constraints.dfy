/**
 * The filter-to-query translation of the dropdown filter: how one selected
 * filter value becomes either a structured constraint list (device mode) or a
 * textual XPath fragment (web mode), and how a change event rewrites the
 * query state of the target list view.
 */
module Constraints {

  import opened Wrappers

  /** The value the dropdown reports when the user clears the selection. */
  const Sentinel: string := "(empty)"

  /** How a configured filter is applied: `filterOptions` = "attribute" | "XPath". */
  datatype FilterBy = Attribute | XPath

  /** The matching methods a filter may be configured with: `filterMethodOptions`. */
  datatype FilterMethod = Equals | Contains {
    /** The operator name written into a constraint. */
    function Name(): (s: string)
      ensures s == "equals" || s == "contains"
      ensures this == Equals <==> s == "equals"
    {
      match this
      case Equals => "equals"
      case Contains => "contains"
    }
  }

  /** One configured filter (`FilterProps`). */
  datatype FilterProps = FilterProps(
    caption: string,
    filterBy: FilterBy,
    attribute: string,
    value: string,
    constraint: string,
    filterMethod: FilterMethod)

  /** One entry of a structured constraint list (an element of `HybridConstraint`). */
  datatype ConstraintEntry = ConstraintEntry(attribute: string, operator: string, path: string, value: string)

  /** The `_constraints` field of a list view's datasource: `HybridConstraint | string`. */
  datatype HybridConstraint = Structured(entries: seq<ConstraintEntry>) | Textual(text: string)

  /** A constraint that filters nothing: the empty list or the empty string. */
  predicate IsEmpty(c: HybridConstraint) {
    match c
    case Structured(entries) => entries == []
    case Textual(text) => text == ""
  }

  /** The five arguments of one change event, in the order the dropdown passes them. */
  datatype FilterChange = FilterChange(
    value: string,
    attribute: string,
    filterBy: FilterBy,
    constraint: string,
    filterMethod: string)

  /** The textual fragment `method(attribute,'value')`. */
  function TextualFragment(filterMethod: string, attribute: string, value: string): (fragment: string) {
    filterMethod + "(" + attribute + ",'" + value + "')"
  }

  /** The textual fragment wrapped as a one-element list literal, `[method(attribute,'value')]`. */
  function TextualConstraint(filterMethod: string, attribute: string, value: string): (text: string) {
    "[" + TextualFragment(filterMethod, attribute, value) + "]"
  }

  /**
   * What an attribute filter writes into `_constraints`: in device mode a
   * one-entry list, otherwise the bracketed textual fragment; the empty value
   * gives the empty constraint of the chosen form.
   */
  function AttributeConstraint(value: string, attribute: string, filterMethod: string, entity: string, device: bool)
    : (r: HybridConstraint)
    ensures r.Structured? <==> device
    ensures IsEmpty(r) <==> value == ""
    ensures device && value != "" ==>
      |r.entries| == 1 &&
      r.entries[0].attribute == attribute && r.entries[0].operator == filterMethod &&
      r.entries[0].path == entity && r.entries[0].value == value
    ensures !device && value != "" ==> r.text == TextualConstraint(filterMethod, attribute, value)
  {
    if device then
      Structured(if value != "" then [ConstraintEntry(attribute, filterMethod, entity, value)] else [])
    else
      Textual(if value != "" then TextualConstraint(filterMethod, attribute, value) else "")
  }

  // ---------------------------------------------------------------------------
  // Decoding the textual form: the textual constraint determines the filter.
  // ---------------------------------------------------------------------------

  /** The method, attribute and value recovered from a textual constraint. */
  datatype ParsedFilter = ParsedFilter(filterMethod: string, attribute: string, value: string)

  /** The position of the first `c` in `s`, or `|s|` when there is none. */
  function FirstIndex(s: string, c: char): (r: nat)
    ensures r <= |s|
    ensures r < |s| ==> s[r] == c
    ensures c !in s[..r]
  {
    if s == [] then 0
    else if s[0] == c then 0
    else
      var r := FirstIndex(s[1..], c);
      assert s[..1 + r] == [s[0]] + s[1..][..r];
      1 + r
  }

  /**
   * Reads `[method(attribute,'value')]` back: the method runs up to the first
   * `(`, the attribute up to the next `,`, and the value is what lies between
   * `,'` and the closing `')]`.
   */
  function ParseTextual(s: string): (p: Option<ParsedFilter>) {
    if |s| < 4 || s[0] != '[' || s[|s| - 3..] != "')]" then None
    else ParseCall(s[1..|s| - 3])
  }

  /** Reads `method(attribute,'value`. */
  function ParseCall(inner: string): (p: Option<ParsedFilter>) {
    var i := FirstIndex(inner, '(');
    if i == |inner| then None
    else
      var args := ParseArguments(inner[i + 1..]);
      if args.None? then None
      else Some(ParsedFilter(inner[..i], args.value.attribute, args.value.value))
  }

  /** The attribute and value recovered from `attribute,'value`. */
  datatype ParsedArguments = ParsedArguments(attribute: string, value: string)

  /** Reads `attribute,'value`. */
  function ParseArguments(rest: string): (args: Option<ParsedArguments>) {
    var j := FirstIndex(rest, ',');
    if j + 1 >= |rest| || rest[j + 1] != '\'' then None
    else Some(ParsedArguments(rest[..j], rest[j + 2..]))
  }

  /** A method name without `(` and an attribute name without `,` can be read back. */
  predicate Decodable(filterMethod: string, attribute: string) {
    '(' !in filterMethod && ',' !in attribute
  }

  lemma {:induction false} FirstIndexAfter(a: string, c: char, b: string)
    requires c !in a
    ensures FirstIndex(a + [c] + b, c) == |a|
  {
    var s := a + [c] + b;
    assert s[|a|] == c;
    assert s[..|a|] == a;
  }

  lemma {:induction false} ParseArgumentsRoundTrip(attribute: string, value: string)
    requires ',' !in attribute
    ensures ParseArguments(attribute + ",'" + value) == Some(ParsedArguments(attribute, value))
  {
    var rest := attribute + ",'" + value;
    assert rest == attribute + [','] + ("'" + value);
    FirstIndexAfter(attribute, ',', "'" + value);
    assert rest[|attribute| + 1] == '\'';
    assert rest[..|attribute|] == attribute;
    assert rest[|attribute| + 2..] == value;
  }

  lemma {:induction false} ParseCallRoundTrip(filterMethod: string, attribute: string, value: string)
    requires Decodable(filterMethod, attribute)
    ensures ParseCall(filterMethod + "(" + attribute + ",'" + value) == Some(ParsedFilter(filterMethod, attribute, value))
  {
    var tail := attribute + ",'" + value;
    var inner := filterMethod + "(" + attribute + ",'" + value;
    assert inner == filterMethod + ['('] + tail;
    FirstIndexAfter(filterMethod, '(', tail);
    assert inner[|filterMethod| + 1..] == tail;
    assert inner[..|filterMethod|] == filterMethod;
    ParseArgumentsRoundTrip(attribute, value);
  }

  lemma WrapParts(inner: string)
    ensures var s := "[" + (inner + "')") + "]";
      |s| >= 4 && s[0] == '[' && s[|s| - 3..] == "')]" && s[1..|s| - 3] == inner
  {
    var s := "[" + (inner + "')") + "]";
    assert s[1..|s| - 3] == inner;
    assert s[|s| - 3..] == "')]";
  }

  /** Decoding the textual constraint gives back exactly the filter it was built from. */
  lemma {:induction false} ParseTextualRoundTrip(filterMethod: string, attribute: string, value: string)
    requires Decodable(filterMethod, attribute)
    ensures ParseTextual(TextualConstraint(filterMethod, attribute, value)) == Some(ParsedFilter(filterMethod, attribute, value))
  {
    var inner := filterMethod + "(" + attribute + ",'" + value;
    assert TextualConstraint(filterMethod, attribute, value) == "[" + (inner + "')") + "]";
    WrapParts(inner);
    ParseCallRoundTrip(filterMethod, attribute, value);
  }

  lemma {:induction false} ParseArgumentsSound(rest: string)
    requires ParseArguments(rest).Some?
    ensures var args := ParseArguments(rest).value;
      ',' !in args.attribute && rest == args.attribute + ",'" + args.value
  {
  }

  /** `a + b + c` regrouped; called to spare the solver a search for the regrouping. */
  lemma ConcatAssoc(a: string, b: string, c: string)
    ensures a + b + c == a + (b + c)
  {
  }

  lemma {:induction false} ParseCallSound(inner: string)
    requires ParseCall(inner).Some?
    ensures var p := ParseCall(inner).value;
      Decodable(p.filterMethod, p.attribute) && inner == p.filterMethod + "(" + p.attribute + ",'" + p.value
  {
    var i := FirstIndex(inner, '(');
    var m, rest := inner[..i], inner[i + 1..];
    var args := ParseArguments(rest).value;
    var a, v := args.attribute, args.value;
    ParseArgumentsSound(rest);
    assert inner == m + [inner[i]] + rest;
    ConcatAssoc(m + "(", a + ",'", v);
    ConcatAssoc(m + "(", a, ",'");
  }

  /** Whatever decodes was built by `TextualConstraint` from a decodable method and attribute. */
  lemma {:induction false} ParseTextualSound(s: string)
    requires ParseTextual(s).Some?
    ensures var p := ParseTextual(s).value;
      Decodable(p.filterMethod, p.attribute) && s == TextualConstraint(p.filterMethod, p.attribute, p.value)
  {
    var inner := s[1..|s| - 3];
    ParseCallSound(inner);
    var p := ParseCall(inner).value;
    var m, a, v := p.filterMethod, p.attribute, p.value;
    calc {
      s;
      { assert s[..1] == "[" && s[|s| - 3..|s| - 1] == "')" && s[|s| - 1..] == "]";
        assert s == s[..1] + (inner + s[|s| - 3..|s| - 1]) + s[|s| - 1..]; }
      "[" + (inner + "')") + "]";
      "[" + (m + "(" + a + ",'" + v + "')") + "]";
    }
  }

  /** Two decodable filters with the same textual constraint are the same filter. */
  lemma TextualConstraintInjective(m1: string, a1: string, v1: string, m2: string, a2: string, v2: string)
    requires Decodable(m1, a1) && Decodable(m2, a2)
    requires TextualConstraint(m1, a1, v1) == TextualConstraint(m2, a2, v2)
    ensures m1 == m2 && a1 == a2 && v1 == v2
  {
    ParseTextualRoundTrip(m1, a1, v1);
    ParseTextualRoundTrip(m2, a2, v2);
  }

  /**
   * A configured filter method (`equals` or `contains`) has no `(`, so a filter
   * whose attribute has no `,` is always read back from its textual constraint.
   */
  lemma ConfiguredFilterRoundTrip(m: FilterMethod, attribute: string, value: string)
    requires ',' !in attribute
    ensures Decodable(m.Name(), attribute)
    ensures ParseTextual(TextualConstraint(m.Name(), attribute, value)) == Some(ParsedFilter(m.Name(), attribute, value))
  {
    ParseTextualRoundTrip(m.Name(), attribute, value);
  }

  // ---------------------------------------------------------------------------
  // The effect of one change event on the target's query state.
  // ---------------------------------------------------------------------------

  /**
   * The query state of a target list view as the filter sees it: its
   * `datasource.xpathConstraints`, its `_datasource._constraints` (None when
   * the list view has no `_datasource`), and how often `update()` was called.
   */
  datatype TargetView = TargetView(xpathConstraints: string, constraints: Option<HybridConstraint>, updates: nat)

  /**
   * How many times one change event calls `update()` on the target: none for
   * the sentinel, twice for an attribute filter on a list view with a
   * datasource (once inside the constraint update and once after it), once
   * otherwise.
   */
  function Refreshes(t: TargetView, c: FilterChange): (n: nat) {
    if c.value == Sentinel then 0
    else if c.filterBy == Attribute && t.constraints.Some? then 2
    else 1
  }

  /** The target's query state after one change event. */
  function Change(t: TargetView, c: FilterChange, entity: string, device: bool): (r: TargetView)
    ensures r.updates == t.updates + Refreshes(t, c)
    ensures c.value == Sentinel ==> r == t
    ensures c.filterBy == XPath ==> r.constraints == t.constraints
    ensures c.filterBy == Attribute ==> r.xpathConstraints == t.xpathConstraints
    ensures c.value != Sentinel && c.filterBy == XPath ==> r.xpathConstraints == c.constraint
    ensures r.constraints.Some? <==> t.constraints.Some?
    ensures c.value != Sentinel && c.filterBy == Attribute && t.constraints.Some? ==>
      r.constraints == Some(AttributeConstraint(c.value, c.attribute, c.filterMethod, entity, device))
  {
    if c.value == Sentinel then t
    else
      match c.filterBy
      case Attribute =>
        if t.constraints.Some? then
          t.(constraints := Some(AttributeConstraint(c.value, c.attribute, c.filterMethod, entity, device)),
             updates := t.updates + 2)
        else t.(updates := t.updates + 1)
      case XPath =>
        t.(xpathConstraints := c.constraint, updates := t.updates + 1)
  }

  /**
   * Full replace, not append: a repeated change event leaves both constraint
   * fields as the first left them and only refreshes the target again.
   */
  lemma ChangeTwice(t: TargetView, c: FilterChange, entity: string, device: bool)
    ensures var once := Change(t, c, entity, device);
      Change(once, c, entity, device) == once.(updates := t.updates + 2 * Refreshes(t, c))
  {
  }

  /** Attribute `Status`, value `Open`, method `equals`, web mode. */
  lemma TextualExample()
    ensures AttributeConstraint("Open", "Status", "equals", "MyFirstModule.Ticket", false) == Textual("[equals(Status,'Open')]")
  {
  }
}
