/** `_parse_data_flow_component` and `_parse_data_flow_path`: a pipeline
    component element is read in four passes over its children (properties,
    outputs, inputs, connections). Each pass is specified by a fold over the
    children that grows the way the loop's lists and variables do, and the
    loop is proved to compute it. */
module Components {
  import opened Basics
  import opened Text
  import opened Xml
  import opened Models

  // ---------------------------------------------------------------------
  // Component kind

  /** The kind chosen from `componentClassID`: `Source` is tested first,
      then `Destination`; anything else is a transform. */
  function ClassifyComponent(componentClass: string): (t: string)
    ensures t == "Source" <==> Contains(componentClass, "Source")
    ensures t == "Destination" <==> !Contains(componentClass, "Source") && Contains(componentClass, "Destination")
    ensures t == "Transform" <==> !Contains(componentClass, "Source") && !Contains(componentClass, "Destination")
  {
    if Contains(componentClass, "Source") then "Source"
    else if Contains(componentClass, "Destination") then "Destination"
    else "Transform"
  }

  /** Every component gets one of the three kinds the reports group by. */
  lemma ComponentKinds(componentClass: string)
    ensures ClassifyComponent(componentClass) in ["Source", "Transform", "Destination"]
  {
  }

  /** A class naming both, such as a hypothetical `SourceToDestination`,
      is a source. */
  lemma SourceWinsOverDestination()
    ensures ClassifyComponent("Source" + "To" + "Destination") == "Source"
  {
    ContainsSelf("Source");
    ContainsLeft("Source", "To" + "Destination", "Source");
    assert "Source" + "To" + "Destination" == "Source" + ("To" + "Destination");
  }

  // ---------------------------------------------------------------------
  // Properties

  /** What the properties pass keeps: every property's text by name, and
      the texts of the `SqlCommand` and `OpenRowset` properties. */
  datatype PropState = PropState(props: map<string, Option<string>>, sqlCommand: Option<string>, tableName: Option<string>)

  const NoProps: PropState := PropState(map[], None, None)

  /** One `property` element: a later property of the same name overwrites
      an earlier one. */
  function PropStep(st: PropState, p: Node): PropState {
    var name := GetOr(p, "name", "");
    PropState(st.props[name := p.text],
              if name == "SqlCommand" then p.text else st.sqlCommand,
              if name == "OpenRowset" then p.text else st.tableName)
  }

  /** The inner loop over one `properties` container. */
  function PropsIn(st: PropState, ps: seq<Node>): PropState
    decreases |ps|
  {
    if ps == [] then st
    else
      var prev := PropsIn(st, ps[..|ps| - 1]);
      var p := ps[|ps| - 1];
      if p.tag == "property" then PropStep(prev, p) else prev
  }

  /** The outer loop over the component's children. */
  function PropsOf(st: PropState, cs: seq<Node>): PropState
    decreases |cs|
  {
    if cs == [] then st
    else
      var prev := PropsOf(st, cs[..|cs| - 1]);
      var c := cs[|cs| - 1];
      if c.tag == "properties" then PropsIn(prev, c.children) else prev
  }

  /** The SQL command and table name are the `SqlCommand` and `OpenRowset`
      entries of the property map (`None` when there is none). */
  predicate PropsAgree(st: PropState) {
    && st.sqlCommand == (if "SqlCommand" in st.props then st.props["SqlCommand"] else None)
    && st.tableName == (if "OpenRowset" in st.props then st.props["OpenRowset"] else None)
  }

  lemma {:induction false} PropsInAgree(st: PropState, ps: seq<Node>)
    requires PropsAgree(st)
    ensures PropsAgree(PropsIn(st, ps))
    decreases |ps|
  {
    if ps != [] {
      PropsInAgree(st, ps[..|ps| - 1]);
    }
  }

  lemma {:induction false} PropsOfAgree(st: PropState, cs: seq<Node>)
    requires PropsAgree(st)
    ensures PropsAgree(PropsOf(st, cs))
    decreases |cs|
  {
    if cs != [] {
      PropsOfAgree(st, cs[..|cs| - 1]);
      var c := cs[|cs| - 1];
      if c.tag == "properties" {
        PropsInAgree(PropsOf(st, cs[..|cs| - 1]), c.children);
      }
    }
  }

  /** A name is in the map after the inner loop exactly when it was there
      before or some `property` element carries it. */
  lemma {:induction false} PropsInKeys(st: PropState, ps: seq<Node>)
    ensures forall k :: k in PropsIn(st, ps).props <==>
      k in st.props || exists p :: p in ps && p.tag == "property" && GetOr(p, "name", "") == k
    decreases |ps|
  {
    if ps != [] {
      var init := ps[..|ps| - 1];
      PropsInKeys(st, init);
      assert ps == init + [ps[|ps| - 1]];
    }
  }

  /** The last `property` element of a container decides its name's entry. */
  lemma LastPropertyWins(st: PropState, ps: seq<Node>)
    requires ps != [] && ps[|ps| - 1].tag == "property"
    ensures PropsIn(st, ps).props[GetOr(ps[|ps| - 1], "name", "")] == ps[|ps| - 1].text
  {
  }

  method ParsePropertiesIn(container: Node, st: PropState) returns (st': PropState)
    ensures st' == PropsIn(st, container.children)
  {
    var props, sqlCommand, tableName := st.props, st.sqlCommand, st.tableName;
    var j := 0;
    while j < |container.children|
      invariant 0 <= j <= |container.children|
      invariant PropState(props, sqlCommand, tableName) == PropsIn(st, container.children[..j])
    {
      var prop := container.children[j];
      assert container.children[..j + 1][..j] == container.children[..j];
      if prop.tag == "property" {
        var name := GetOr(prop, "name", "");
        var value := prop.text;
        props := props[name := value];
        if name == "SqlCommand" {
          sqlCommand := value;
        } else if name == "OpenRowset" {
          tableName := value;
        }
      }
      j := j + 1;
    }
    assert container.children[..j] == container.children;
    st' := PropState(props, sqlCommand, tableName);
  }

  /** The properties pass of `_parse_data_flow_component`. */
  method ParseProperties(elem: Node) returns (st: PropState)
    ensures st == PropsOf(NoProps, elem.children)
  {
    st := NoProps;
    var i := 0;
    while i < |elem.children|
      invariant 0 <= i <= |elem.children|
      invariant st == PropsOf(NoProps, elem.children[..i])
    {
      var propContainer := elem.children[i];
      assert elem.children[..i + 1][..i] == elem.children[..i];
      if propContainer.tag == "properties" {
        st := ParsePropertiesIn(propContainer, st);
      }
      i := i + 1;
    }
    assert elem.children[..i] == elem.children;
  }

  // ---------------------------------------------------------------------
  // Outputs: error flag, conditional outputs, output columns

  /** `int(p.text) if p.text else None` needs a literal in a non-empty
      `EvaluationOrder` text; Python raises otherwise. */
  predicate OrderValid(p: Node) {
    p.tag == "property" && GetOr(p, "name", "") == "EvaluationOrder" && Truthy(p.text) ==> IsIntLiteral(p.text.value)
  }

  /** `int(col.get('length', 0)) if col.get('length') else None` needs a
      literal in a non-empty `length` attribute. */
  predicate LengthValid(col: Node, key: string) {
    key in col.attrs && col.attrs[key] != "" ==> IsIntLiteral(col.attrs[key])
  }

  predicate OutputValid(o: Node) {
    forall x :: x in o.children ==>
      && (x.tag == "properties" ==> forall p :: p in x.children ==> OrderValid(p))
      && (x.tag == "outputColumns" ==> forall col :: col in x.children && col.tag == "outputColumn" ==> LengthValid(col, "length"))
  }

  predicate OutputsValid(container: Node) {
    forall o :: o in container.children && o.tag == "output" ==> OutputValid(o)
  }

  /** The local variables of one `properties` block of an output. */
  datatype CondProps = CondProps(expression: Option<string>, friendly: Option<string>, evaluationOrder: Option<int>, isDefault: bool)

  const NoCondProps: CondProps := CondProps(None, None, None, false)

  /** One `property` of the block; the last property of each name wins.
      `IsDefaultOut` counts only when its text is non-empty and lowercases
      to `true`. */
  function CondStep(c: CondProps, p: Node): CondProps
    requires p.tag == "property" && OrderValid(p)
  {
    var pname := GetOr(p, "name", "");
    if pname == "Expression" then c.(expression := p.text)
    else if pname == "FriendlyExpression" then c.(friendly := p.text)
    else if pname == "EvaluationOrder" then c.(evaluationOrder := if Truthy(p.text) then Some(IntValue(p.text.value)) else None)
    else if pname == "IsDefaultOut" then c.(isDefault := Truthy(p.text) && Lower(p.text.value) == "true")
    else c
  }

  function CondPropsIn(c: CondProps, ps: seq<Node>): CondProps
    requires forall p :: p in ps ==> OrderValid(p)
    decreases |ps|
  {
    if ps == [] then c
    else
      var prev := CondPropsIn(c, ps[..|ps| - 1]);
      var p := ps[|ps| - 1];
      if p.tag == "property" then CondStep(prev, p) else prev
  }

  /** A block yields a conditional output, named after its output, exactly
      when its expression is non-empty or it is the default output. */
  function BlockConditional(outputName: string, block: Node): (r: Option<ConditionalOutput>)
    requires forall p :: p in block.children ==> OrderValid(p)
    ensures var c := CondPropsIn(NoCondProps, block.children);
            r.Some? <==> Truthy(c.expression) || c.isDefault
    ensures r.Some? ==> r.value.name == outputName && (Truthy(r.value.expression) || r.value.isDefault)
  {
    var c := CondPropsIn(NoCondProps, block.children);
    if Truthy(c.expression) || c.isDefault then
      Some(ConditionalOutput(outputName, c.expression, c.friendly, c.evaluationOrder, c.isDefault))
    else None
  }

  function AsSeq<T>(o: Option<T>): seq<T> {
    if o.Some? then [o.value] else []
  }

  /** The `for out_props in output` loop. */
  function ConditionalsIn(acc: seq<ConditionalOutput>, outputName: string, xs: seq<Node>): seq<ConditionalOutput>
    requires forall x :: x in xs && x.tag == "properties" ==> forall p :: p in x.children ==> OrderValid(p)
    decreases |xs|
  {
    if xs == [] then acc
    else
      var prev := ConditionalsIn(acc, outputName, xs[..|xs| - 1]);
      var x := xs[|xs| - 1];
      if x.tag == "properties" then prev + AsSeq(BlockConditional(outputName, x)) else prev
  }

  /** An `outputColumn` element. */
  function OutputColumnOf(col: Node): (r: OutputColumn)
    requires LengthValid(col, "length")
    ensures r.length.Some? <==> "length" in col.attrs && col.attrs["length"] != ""
  {
    var length := Get(col, "length", None);
    OutputColumn(GetOr(col, "name", ""), Some(GetOr(col, "refId", "")), Get(col, "dataType", None),
                 if Truthy(length) then Some(IntValue(length.value)) else None,
                 Get(col, "expression", None), None)
  }

  function OutputColumnsIn(acc: seq<OutputColumn>, cols: seq<Node>): seq<OutputColumn>
    requires forall col :: col in cols && col.tag == "outputColumn" ==> LengthValid(col, "length")
    decreases |cols|
  {
    if cols == [] then acc
    else
      var prev := OutputColumnsIn(acc, cols[..|cols| - 1]);
      var col := cols[|cols| - 1];
      if col.tag == "outputColumn" then prev + [OutputColumnOf(col)] else prev
  }

  /** The `for out_cols in output` loop. */
  function OutputColumnsOf(acc: seq<OutputColumn>, xs: seq<Node>): seq<OutputColumn>
    requires forall x :: x in xs && x.tag == "outputColumns" ==>
      forall col :: col in x.children && col.tag == "outputColumn" ==> LengthValid(col, "length")
    decreases |xs|
  {
    if xs == [] then acc
    else
      var prev := OutputColumnsOf(acc, xs[..|xs| - 1]);
      var x := xs[|xs| - 1];
      if x.tag == "outputColumns" then OutputColumnsIn(prev, x.children) else prev
  }

  /** `output.get('isErrorOut', 'false').lower() == 'true'`. */
  predicate IsErrorOutput(o: Node) {
    Lower(GetOr(o, "isErrorOut", "false")) == "true"
  }

  datatype OutputsState = OutputsState(outputColumns: seq<OutputColumn>, conditionalOutputs: seq<ConditionalOutput>, hasErrorOutput: bool)

  const NoOutputs: OutputsState := OutputsState([], [], false)

  /** One `output` element: raise the error flag, then its conditional
      outputs, then its columns. */
  function OutputStep(st: OutputsState, o: Node): OutputsState
    requires OutputValid(o)
  {
    OutputsState(OutputColumnsOf(st.outputColumns, o.children),
                 ConditionalsIn(st.conditionalOutputs, GetOr(o, "name", ""), o.children),
                 st.hasErrorOutput || IsErrorOutput(o))
  }

  function OutputsIn(st: OutputsState, os: seq<Node>): OutputsState
    requires forall o :: o in os && o.tag == "output" ==> OutputValid(o)
    decreases |os|
  {
    if os == [] then st
    else
      var prev := OutputsIn(st, os[..|os| - 1]);
      var o := os[|os| - 1];
      if o.tag == "output" then OutputStep(prev, o) else prev
  }

  function OutputsOf(st: OutputsState, cs: seq<Node>): OutputsState
    requires forall c :: c in cs && c.tag == "outputs" ==> OutputsValid(c)
    decreases |cs|
  {
    if cs == [] then st
    else
      var prev := OutputsOf(st, cs[..|cs| - 1]);
      var c := cs[|cs| - 1];
      if c.tag == "outputs" then assert c in cs && OutputsValid(c); OutputsIn(prev, c.children) else prev
  }

  /** The `for p in out_props` loop: the last property of each name wins. */
  method ParseConditionalBlock(block: Node)
    returns (expr: Option<string>, friendlyExpr: Option<string>, evalOrder: Option<int>, isDefault: bool)
    requires forall p :: p in block.children ==> OrderValid(p)
    ensures CondProps(expr, friendlyExpr, evalOrder, isDefault) == CondPropsIn(NoCondProps, block.children)
  {
    expr, friendlyExpr, evalOrder, isDefault := None, None, None, false;
    var k := 0;
    while k < |block.children|
      invariant 0 <= k <= |block.children|
      invariant CondProps(expr, friendlyExpr, evalOrder, isDefault) == CondPropsIn(NoCondProps, block.children[..k])
    {
      var p := block.children[k];
      assert block.children[..k + 1][..k] == block.children[..k];
      assert OrderValid(p);
      if p.tag == "property" {
        var pname := GetOr(p, "name", "");
        if pname == "Expression" {
          expr := p.text;
        } else if pname == "FriendlyExpression" {
          friendlyExpr := p.text;
        } else if pname == "EvaluationOrder" {
          evalOrder := if Truthy(p.text) then Some(IntValue(p.text.value)) else None;
        } else if pname == "IsDefaultOut" {
          isDefault := Truthy(p.text) && Lower(p.text.value) == "true";
        }
      }
      k := k + 1;
    }
    assert block.children[..k] == block.children;
  }

  /** The conditional outputs of one `output` element. */
  method ParseConditionals(output: Node, outputName: string, acc: seq<ConditionalOutput>)
    returns (acc': seq<ConditionalOutput>)
    requires OutputValid(output)
    ensures acc' == ConditionalsIn(acc, outputName, output.children)
  {
    acc' := acc;
    var k := 0;
    while k < |output.children|
      invariant 0 <= k <= |output.children|
      invariant acc' == ConditionalsIn(acc, outputName, output.children[..k])
    {
      var outProps := output.children[k];
      assert output.children[..k + 1][..k] == output.children[..k];
      if outProps.tag == "properties" {
        var expr, friendlyExpr, evalOrder, isDefault := ParseConditionalBlock(outProps);
        if Truthy(expr) || isDefault {
          acc' := acc' + [ConditionalOutput(outputName, expr, friendlyExpr, evalOrder, isDefault)];
        }
      }
      k := k + 1;
    }
    assert output.children[..k] == output.children;
  }

  method ParseOutputColumnsIn(outCols: Node, acc: seq<OutputColumn>) returns (acc': seq<OutputColumn>)
    requires forall col :: col in outCols.children && col.tag == "outputColumn" ==> LengthValid(col, "length")
    ensures acc' == OutputColumnsIn(acc, outCols.children)
  {
    acc' := acc;
    var k := 0;
    while k < |outCols.children|
      invariant 0 <= k <= |outCols.children|
      invariant acc' == OutputColumnsIn(acc, outCols.children[..k])
    {
      var col := outCols.children[k];
      assert outCols.children[..k + 1][..k] == outCols.children[..k];
      if col.tag == "outputColumn" {
        var length := Get(col, "length", None);
        acc' := acc' + [OutputColumn(GetOr(col, "name", ""), Some(GetOr(col, "refId", "")), Get(col, "dataType", None),
                                     if Truthy(length) then Some(IntValue(length.value)) else None,
                                     Get(col, "expression", None), None)];
      }
      k := k + 1;
    }
    assert outCols.children[..k] == outCols.children;
  }

  /** The output columns of one `output` element. */
  method ParseOutputColumns(output: Node, acc: seq<OutputColumn>) returns (acc': seq<OutputColumn>)
    requires OutputValid(output)
    ensures acc' == OutputColumnsOf(acc, output.children)
  {
    acc' := acc;
    var k := 0;
    while k < |output.children|
      invariant 0 <= k <= |output.children|
      invariant acc' == OutputColumnsOf(acc, output.children[..k])
    {
      var outCols := output.children[k];
      assert output.children[..k + 1][..k] == output.children[..k];
      if outCols.tag == "outputColumns" {
        acc' := ParseOutputColumnsIn(outCols, acc');
      }
      k := k + 1;
    }
    assert output.children[..k] == output.children;
  }

  /** The body of the `for output in outputs_container` loop. */
  method ParseOutput(output: Node, st: OutputsState) returns (st': OutputsState)
    requires OutputValid(output)
    ensures st' == OutputStep(st, output)
  {
    var hasErrorOutput := st.hasErrorOutput;
    var isError := Lower(GetOr(output, "isErrorOut", "false")) == "true";
    if isError {
      hasErrorOutput := true;
    }
    var outputName := GetOr(output, "name", "");
    var conditionals := ParseConditionals(output, outputName, st.conditionalOutputs);
    var columns := ParseOutputColumns(output, st.outputColumns);
    st' := OutputsState(columns, conditionals, hasErrorOutput);
  }

  method ParseOutputsIn(container: Node, st: OutputsState) returns (st': OutputsState)
    requires OutputsValid(container)
    ensures st' == OutputsIn(st, container.children)
  {
    st' := st;
    var j := 0;
    while j < |container.children|
      invariant 0 <= j <= |container.children|
      invariant st' == OutputsIn(st, container.children[..j])
    {
      var output := container.children[j];
      assert container.children[..j + 1][..j] == container.children[..j];
      if output.tag == "output" {
        st' := ParseOutput(output, st');
      }
      j := j + 1;
    }
    assert container.children[..j] == container.children;
  }

  /** The outputs pass of `_parse_data_flow_component`. */
  method ParseOutputs(elem: Node) returns (st: OutputsState)
    requires forall c :: c in elem.children && c.tag == "outputs" ==> OutputsValid(c)
    ensures st == OutputsOf(NoOutputs, elem.children)
  {
    st := NoOutputs;
    var i := 0;
    while i < |elem.children|
      invariant 0 <= i <= |elem.children|
      invariant st == OutputsOf(NoOutputs, elem.children[..i])
    {
      var outputsContainer := elem.children[i];
      assert elem.children[..i + 1][..i] == elem.children[..i];
      if outputsContainer.tag == "outputs" {
        st := ParseOutputsIn(outputsContainer, st);
      }
      i := i + 1;
    }
    assert elem.children[..i] == elem.children;
  }

  // ---------------------------------------------------------------------
  // Inputs

  predicate InputValid(inp: Node) {
    forall x :: x in inp.children && x.tag == "inputColumns" ==>
      forall col :: col in x.children && col.tag == "inputColumn" ==> LengthValid(col, "cachedLength")
  }

  predicate InputsValid(container: Node) {
    forall inp :: inp in container.children && inp.tag == "input" ==> InputValid(inp)
  }

  /** An `inputColumn` element, described by its cached name, type and length. */
  function InputColumnOf(col: Node): (r: Column)
    requires LengthValid(col, "cachedLength")
    ensures r.length.Some? <==> "cachedLength" in col.attrs && col.attrs["cachedLength"] != ""
    ensures r.isNullable && r.precision == None && r.scale == None
  {
    var length := Get(col, "cachedLength", None);
    Column(GetOr(col, "cachedName", ""), Some(GetOr(col, "refId", "")), Get(col, "cachedDataType", None),
           if Truthy(length) then Some(IntValue(length.value)) else None, None, None, true)
  }

  function InputColumnsIn(acc: seq<Column>, cols: seq<Node>): seq<Column>
    requires forall col :: col in cols && col.tag == "inputColumn" ==> LengthValid(col, "cachedLength")
    decreases |cols|
  {
    if cols == [] then acc
    else
      var prev := InputColumnsIn(acc, cols[..|cols| - 1]);
      var col := cols[|cols| - 1];
      if col.tag == "inputColumn" then prev + [InputColumnOf(col)] else prev
  }

  function InputColumnsOf(acc: seq<Column>, xs: seq<Node>): seq<Column>
    requires forall x :: x in xs && x.tag == "inputColumns" ==>
      forall col :: col in x.children && col.tag == "inputColumn" ==> LengthValid(col, "cachedLength")
    decreases |xs|
  {
    if xs == [] then acc
    else
      var prev := InputColumnsOf(acc, xs[..|xs| - 1]);
      var x := xs[|xs| - 1];
      if x.tag == "inputColumns" then InputColumnsIn(prev, x.children) else prev
  }

  function InputsIn(acc: seq<Column>, ins: seq<Node>): seq<Column>
    requires forall inp :: inp in ins && inp.tag == "input" ==> InputValid(inp)
    decreases |ins|
  {
    if ins == [] then acc
    else
      var prev := InputsIn(acc, ins[..|ins| - 1]);
      var inp := ins[|ins| - 1];
      if inp.tag == "input" then assert inp in ins && InputValid(inp); InputColumnsOf(prev, inp.children) else prev
  }

  function InputsOf(acc: seq<Column>, cs: seq<Node>): seq<Column>
    requires forall c :: c in cs && c.tag == "inputs" ==> InputsValid(c)
    decreases |cs|
  {
    if cs == [] then acc
    else
      var prev := InputsOf(acc, cs[..|cs| - 1]);
      var c := cs[|cs| - 1];
      if c.tag == "inputs" then assert c in cs && InputsValid(c); InputsIn(prev, c.children) else prev
  }

  method ParseInputColumnsIn(inpCols: Node, acc: seq<Column>) returns (acc': seq<Column>)
    requires forall col :: col in inpCols.children && col.tag == "inputColumn" ==> LengthValid(col, "cachedLength")
    ensures acc' == InputColumnsIn(acc, inpCols.children)
  {
    acc' := acc;
    var k := 0;
    while k < |inpCols.children|
      invariant 0 <= k <= |inpCols.children|
      invariant acc' == InputColumnsIn(acc, inpCols.children[..k])
    {
      var col := inpCols.children[k];
      assert inpCols.children[..k + 1][..k] == inpCols.children[..k];
      if col.tag == "inputColumn" {
        var length := Get(col, "cachedLength", None);
        acc' := acc' + [Column(GetOr(col, "cachedName", ""), Some(GetOr(col, "refId", "")), Get(col, "cachedDataType", None),
                               if Truthy(length) then Some(IntValue(length.value)) else None, None, None, true)];
      }
      k := k + 1;
    }
    assert inpCols.children[..k] == inpCols.children;
  }

  method ParseInput(inp: Node, acc: seq<Column>) returns (acc': seq<Column>)
    requires InputValid(inp)
    ensures acc' == InputColumnsOf(acc, inp.children)
  {
    acc' := acc;
    var k := 0;
    while k < |inp.children|
      invariant 0 <= k <= |inp.children|
      invariant acc' == InputColumnsOf(acc, inp.children[..k])
    {
      var inpCols := inp.children[k];
      assert inp.children[..k + 1][..k] == inp.children[..k];
      if inpCols.tag == "inputColumns" {
        acc' := ParseInputColumnsIn(inpCols, acc');
      }
      k := k + 1;
    }
    assert inp.children[..k] == inp.children;
  }

  method ParseInputsIn(container: Node, acc: seq<Column>) returns (acc': seq<Column>)
    requires InputsValid(container)
    ensures acc' == InputsIn(acc, container.children)
  {
    acc' := acc;
    var j := 0;
    while j < |container.children|
      invariant 0 <= j <= |container.children|
      invariant acc' == InputsIn(acc, container.children[..j])
    {
      var inp := container.children[j];
      assert container.children[..j + 1][..j] == container.children[..j];
      if inp.tag == "input" {
        acc' := ParseInput(inp, acc');
      }
      j := j + 1;
    }
    assert container.children[..j] == container.children;
  }

  /** The inputs pass of `_parse_data_flow_component`. */
  method ParseInputs(elem: Node) returns (cols: seq<Column>)
    requires forall c :: c in elem.children && c.tag == "inputs" ==> InputsValid(c)
    ensures cols == InputsOf([], elem.children)
  {
    cols := [];
    var i := 0;
    while i < |elem.children|
      invariant 0 <= i <= |elem.children|
      invariant cols == InputsOf([], elem.children[..i])
    {
      var inputsContainer := elem.children[i];
      assert elem.children[..i + 1][..i] == elem.children[..i];
      if inputsContainer.tag == "inputs" {
        cols := ParseInputsIn(inputsContainer, cols);
      }
      i := i + 1;
    }
    assert elem.children[..i] == elem.children;
  }

  // ---------------------------------------------------------------------
  // Connection

  /** The `connectionManagerRefId` of the first `connection` child, where
      the inner loop breaks. */
  function FirstConnection(cs: seq<Node>): (r: Option<string>)
    ensures r.None? <==> forall c :: c in cs ==> c.tag != "connection"
    ensures r.Some? ==> exists i :: (0 <= i < |cs| && cs[i].tag == "connection" && r.value == GetOr(cs[i], "connectionManagerRefId", "")
                                     && forall j :: 0 <= j < i ==> cs[j].tag != "connection")
  {
    if cs == [] then None
    else if cs[0].tag == "connection" then Some(GetOr(cs[0], "connectionManagerRefId", ""))
    else
      var r := FirstConnection(cs[1..]);
      assert forall j :: 1 <= j < |cs| ==> cs[j] == cs[1..][j - 1];
      assert cs == [cs[0]] + cs[1..];
      r
  }

  /** A `connections` container with at least one `connection` child. */
  predicate HasConnection(c: Node) {
    c.tag == "connections" && FirstConnection(c.children).Some?
  }

  /** The outer loop: a later `connections` container that has a
      `connection` replaces the value; one without leaves it. */
  function ConnectionOf(cur: Option<string>, cs: seq<Node>): Option<string>
    decreases |cs|
  {
    if cs == [] then cur
    else
      var prev := ConnectionOf(cur, cs[..|cs| - 1]);
      var c := cs[|cs| - 1];
      if HasConnection(c) then FirstConnection(c.children) else prev
  }

  /** The inner loop with its `break`. */
  method FindConnection(conns: Node, cur: Option<string>) returns (cur': Option<string>)
    ensures cur' == if FirstConnection(conns.children).Some? then FirstConnection(conns.children) else cur
  {
    cur' := cur;
    var k := 0;
    while k < |conns.children|
      invariant 0 <= k <= |conns.children|
      invariant forall j :: 0 <= j < k ==> conns.children[j].tag != "connection"
    {
      var conn := conns.children[k];
      if conn.tag == "connection" {
        cur' := Some(GetOr(conn, "connectionManagerRefId", ""));
        break;
      }
      k := k + 1;
    }
  }

  /** The connections pass of `_parse_data_flow_component`. */
  method ParseConnection(elem: Node) returns (connManager: Option<string>)
    ensures connManager == ConnectionOf(None, elem.children)
  {
    connManager := None;
    var i := 0;
    while i < |elem.children|
      invariant 0 <= i <= |elem.children|
      invariant connManager == ConnectionOf(None, elem.children[..i])
    {
      var conns := elem.children[i];
      assert elem.children[..i + 1][..i] == elem.children[..i];
      if conns.tag == "connections" {
        connManager := FindConnection(conns, connManager);
      }
      i := i + 1;
    }
    assert elem.children[..i] == elem.children;
  }

  /** The component has a connection exactly when some `connections`
      container has a `connection` child. */
  lemma {:induction false} ConnectionOfFound(cs: seq<Node>)
    ensures ConnectionOf(None, cs).Some? <==> exists c :: c in cs && HasConnection(c)
    decreases |cs|
  {
    if cs != [] {
      var init := cs[..|cs| - 1];
      ConnectionOfFound(init);
      assert cs == init + [cs[|cs| - 1]];
    }
  }

  /** The last container, in document order, that has a connection. */
  function LastWithConnection(cs: seq<Node>): (r: Option<nat>)
    ensures r.Some? ==> r.value < |cs| && HasConnection(cs[r.value])
    ensures r.Some? ==> forall j :: r.value < j < |cs| ==> !HasConnection(cs[j])
    ensures r.None? ==> forall j :: 0 <= j < |cs| ==> !HasConnection(cs[j])
  {
    if cs == [] then None
    else if HasConnection(cs[|cs| - 1]) then Some(|cs| - 1)
    else
      var init := cs[..|cs| - 1];
      assert forall j :: 0 <= j < |init| ==> init[j] == cs[j];
      LastWithConnection(init)
  }

  /** A connection found is the first connection of the last container
      that has one. */
  lemma {:induction false} ConnectionOfLast(cs: seq<Node>)
    ensures ConnectionOf(None, cs) == if LastWithConnection(cs).Some? then FirstConnection(cs[LastWithConnection(cs).value].children) else None
    decreases |cs|
  {
    if cs != [] {
      ConnectionOfLast(cs[..|cs| - 1]);
    }
  }

  // ---------------------------------------------------------------------
  // The component

  /** Every `int(...)` the four passes perform has a literal to read. */
  predicate ComponentNumbersValid(elem: Node) {
    forall c :: c in elem.children ==> (c.tag == "outputs" ==> OutputsValid(c)) && (c.tag == "inputs" ==> InputsValid(c))
  }

  /** `_parse_data_flow_component` as a value. */
  function Component(elem: Node): DataFlowComponent
    requires ComponentNumbersValid(elem)
  {
    var componentClass := GetOr(elem, "componentClassID", "");
    var props := PropsOf(NoProps, elem.children);
    var outs := OutputsOf(NoOutputs, elem.children);
    DataFlowComponent(
      GetOr(elem, "name", "Unknown"), GetOr(elem, "refId", ""), ClassifyComponent(componentClass), componentClass,
      Get(elem, "description", None), InputsOf([], elem.children), outs.outputColumns, outs.conditionalOutputs,
      ConnectionOf(None, elem.children), props.sqlCommand, props.tableName, props.props, outs.hasErrorOutput)
  }

  /** `_parse_data_flow_component`: classify, then the properties, outputs,
      inputs and connections passes. */
  method ParseDataFlowComponent(elem: Node) returns (component: DataFlowComponent)
    requires ComponentNumbersValid(elem)
    ensures component == Component(elem)
  {
    var componentClass := GetOr(elem, "componentClassID", "");
    var componentType := ClassifyComponent(componentClass);
    var props := ParseProperties(elem);
    var outs := ParseOutputs(elem);
    var inputColumns := ParseInputs(elem);
    var connManager := ParseConnection(elem);
    component := DataFlowComponent(
      GetOr(elem, "name", "Unknown"), GetOr(elem, "refId", ""), componentType, componentClass,
      Get(elem, "description", None), inputColumns, outs.outputColumns, outs.conditionalOutputs,
      connManager, props.sqlCommand, props.tableName, props.props, outs.hasErrorOutput);
  }

  /** The component's SQL command and table name are the `SqlCommand` and
      `OpenRowset` entries of its property map. */
  lemma ComponentPropertiesAgree(elem: Node)
    requires ComponentNumbersValid(elem)
    ensures var c := Component(elem);
            && c.sqlCommand == (if "SqlCommand" in c.properties then c.properties["SqlCommand"] else None)
            && c.tableName == (if "OpenRowset" in c.properties then c.properties["OpenRowset"] else None)
  {
    PropsOfAgree(NoProps, elem.children);
  }

  /** Some `output` of some `outputs` container is flagged as an error output. */
  predicate ErrorOutputIn(container: Node) {
    exists o :: o in container.children && o.tag == "output" && IsErrorOutput(o)
  }

  lemma {:induction false} OutputsInError(st: OutputsState, os: seq<Node>)
    requires forall o :: o in os && o.tag == "output" ==> OutputValid(o)
    ensures OutputsIn(st, os).hasErrorOutput <==> st.hasErrorOutput || exists o :: o in os && o.tag == "output" && IsErrorOutput(o)
    decreases |os|
  {
    if os != [] {
      var init := os[..|os| - 1];
      OutputsInError(st, init);
      assert os == init + [os[|os| - 1]];
    }
  }

  lemma {:induction false} OutputsOfError(st: OutputsState, cs: seq<Node>)
    requires forall c :: c in cs && c.tag == "outputs" ==> OutputsValid(c)
    ensures OutputsOf(st, cs).hasErrorOutput <==> st.hasErrorOutput || exists c :: c in cs && c.tag == "outputs" && ErrorOutputIn(c)
    decreases |cs|
  {
    if cs != [] {
      var init := cs[..|cs| - 1];
      var c := cs[|cs| - 1];
      OutputsOfError(st, init);
      assert cs == init + [c];
      if c.tag == "outputs" {
        assert c in cs;
        OutputsInError(OutputsOf(st, init), c.children);
      }
    }
  }

  /** `has_error_output` holds exactly when some `output` element says
      `isErrorOut="true"` in any letter case. */
  lemma ComponentErrorOutput(elem: Node)
    requires ComponentNumbersValid(elem)
    ensures Component(elem).hasErrorOutput <==> exists c :: c in elem.children && c.tag == "outputs" && ErrorOutputIn(c)
  {
    OutputsOfError(NoOutputs, elem.children);
  }

  /** `x` is the conditional output of one of the `properties` blocks of `o`. */
  predicate YieldedBy(o: Node, x: ConditionalOutput)
    requires OutputValid(o)
  {
    exists b :: b in o.children && b.tag == "properties" && BlockConditional(GetOr(o, "name", ""), b) == Some(x)
  }

  /** `x` is yielded by some `output` of the container. */
  predicate YieldedIn(container: Node, x: ConditionalOutput)
    requires OutputsValid(container)
  {
    exists o :: o in container.children && o.tag == "output" && YieldedBy(o, x)
  }

  lemma {:induction false} ConditionalsInMembers(acc: seq<ConditionalOutput>, outputName: string, xs: seq<Node>)
    requires forall x :: x in xs && x.tag == "properties" ==> forall p :: p in x.children ==> OrderValid(p)
    ensures forall x :: x in ConditionalsIn(acc, outputName, xs) <==>
      x in acc || exists b :: b in xs && b.tag == "properties" && BlockConditional(outputName, b) == Some(x)
    decreases |xs|
  {
    if xs != [] {
      var init := xs[..|xs| - 1];
      ConditionalsInMembers(acc, outputName, init);
      assert xs == init + [xs[|xs| - 1]];
    }
  }

  lemma {:induction false} OutputsInConditionals(st: OutputsState, os: seq<Node>)
    requires forall o :: o in os && o.tag == "output" ==> OutputValid(o)
    ensures forall x :: x in OutputsIn(st, os).conditionalOutputs <==>
      x in st.conditionalOutputs || exists o :: o in os && o.tag == "output" && YieldedBy(o, x)
    decreases |os|
  {
    if os != [] {
      var init := os[..|os| - 1];
      var o := os[|os| - 1];
      OutputsInConditionals(st, init);
      assert os == init + [o];
      if o.tag == "output" {
        assert o in os;
        ConditionalsInMembers(OutputsIn(st, init).conditionalOutputs, GetOr(o, "name", ""), o.children);
      }
    }
  }

  lemma {:induction false} OutputsOfConditionals(st: OutputsState, cs: seq<Node>)
    requires forall c :: c in cs && c.tag == "outputs" ==> OutputsValid(c)
    ensures forall x :: x in OutputsOf(st, cs).conditionalOutputs <==>
      x in st.conditionalOutputs || exists c :: c in cs && c.tag == "outputs" && YieldedIn(c, x)
    decreases |cs|
  {
    if cs != [] {
      var init := cs[..|cs| - 1];
      var c := cs[|cs| - 1];
      OutputsOfConditionals(st, init);
      assert cs == init + [c];
      if c.tag == "outputs" {
        assert c in cs;
        OutputsInConditionals(OutputsOf(st, init), c.children);
      }
    }
  }

  /** The conditional outputs are exactly those of the `properties` blocks,
      under `outputs`/`output`, whose expression is non-empty or that are
      the default output; each is named after its output. */
  lemma ComponentConditionalOutputs(elem: Node)
    requires ComponentNumbersValid(elem)
    ensures forall x :: x in Component(elem).conditionalOutputs <==>
      exists c :: c in elem.children && c.tag == "outputs" && YieldedIn(c, x)
    ensures forall x :: x in Component(elem).conditionalOutputs ==> Truthy(x.expression) || x.isDefault
  {
    OutputsOfConditionals(NoOutputs, elem.children);
  }

  /** A block holding only `IsDefaultOut` = `TRUE` is kept as the default
      output even though it has no expression. */
  lemma DefaultBlockKept()
    ensures var b := Node("properties", map[], None, [Node("property", map["name" := "IsDefaultOut"], Some("TRUE"), [])]);
            BlockConditional("Default", b) == Some(ConditionalOutput("Default", None, None, None, true))
  {
    var p := Node("property", map["name" := "IsDefaultOut"], Some("TRUE"), []);
    var b := Node("properties", map[], None, [p]);
    assert b.children[..0] == [];
    assert Lower("TRUE") == "true";
  }

  /** A block with only a friendly expression yields nothing: the raw
      expression decides. */
  lemma FriendlyOnlyBlockDropped()
    ensures var b := Node("properties", map[], None, [Node("property", map["name" := "FriendlyExpression"], Some("x"), [])]);
            BlockConditional("Case 1", b) == None
  {
    var b := Node("properties", map[], None, [Node("property", map["name" := "FriendlyExpression"], Some("x"), [])]);
    assert b.children[..0] == [];
  }

  // ---------------------------------------------------------------------
  // Paths

  /** `_parse_data_flow_path`: `startId` and `endId` are the endpoint refs;
      the component names stay unset. */
  function ParseDataFlowPath(elem: Node): (p: DataFlowPath)
    ensures p.sourceRefId == GetOr(elem, "startId", "") && p.destinationRefId == GetOr(elem, "endId", "")
    ensures p.name == GetOr(elem, "name", "") && p.refId == GetOr(elem, "refId", "")
    ensures p.sourceComponent == None && p.destinationComponent == None
  {
    DataFlowPath(GetOr(elem, "name", ""), GetOr(elem, "refId", ""), GetOr(elem, "startId", ""), GetOr(elem, "endId", ""), None, None)
  }
}
