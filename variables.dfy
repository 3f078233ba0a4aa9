/** `_parse_variables`, `_parse_parameters` and `_extract_thresholds`:
    package variables and parameters with their type codes (8, a string,
    unless the document says otherwise), and the thresholds derived from
    variable names. */
module Variables {
  import opened Basics
  import opened Text
  import opened Xml
  import opened Models
  import opened Parser

  // ---------------------------------------------------------------------
  // Type codes

  /** `int(self._get_attr(n, 'DataType', 8))` needs a literal when the
      attribute is present. */
  predicate TypeCodeValid(n: Node) {
    GetAttr(n, "DataType", None).Some? ==> IsIntLiteral(GetAttr(n, "DataType", None).value)
  }

  /** The integer default 8 survives `int()` unchanged when the attribute is
      absent; a present attribute is read as a number. */
  function TypeCode(n: Node): (r: int)
    requires TypeCodeValid(n)
    ensures GetAttr(n, "DataType", None).None? ==> r == DefaultTypeCode && FromCode(r) == Some(DataType.String)
  {
    var attr := GetAttr(n, "DataType", None);
    if attr.Some? then IntValue(attr.value) else DefaultTypeCode
  }

  /** A type code written back as text reads back as itself. */
  lemma TypeCodeRoundTrip(code: int)
    ensures TypeCode(Node("VariableValue", map["DataType" := IntToString(code)], None, [])) == code
  {
    var n := Node("VariableValue", map["DataType" := IntToString(code)], None, []);
    IntToStringRoundTrip(code);
    AttrKeysDistinct("DataType");
    assert AttrKeys("DataType")[1] == "DataType";
    assert AttrKeys("DataType")[0] !in n.attrs;
  }

  // ---------------------------------------------------------------------
  // Variables

  /** The index of the first child whose tag contains `VariableValue`,
      where the inner loop breaks. */
  function FirstValueIndex(cs: seq<Node>): (r: Option<nat>)
    ensures r.Some? ==> r.value < |cs| && Contains(cs[r.value].tag, "VariableValue")
    ensures r.Some? ==> forall j :: 0 <= j < r.value ==> !Contains(cs[j].tag, "VariableValue")
    ensures r.None? ==> forall j :: 0 <= j < |cs| ==> !Contains(cs[j].tag, "VariableValue")
  {
    if cs == [] then None
    else if Contains(cs[0].tag, "VariableValue") then Some(0)
    else
      var r := FirstValueIndex(cs[1..]);
      assert forall j :: 1 <= j < |cs| ==> cs[j] == cs[1..][j - 1];
      if r.Some? then Some(r.value + 1) else None
  }

  predicate VariableValid(v: Node) {
    FirstValueIndex(v.children).Some? ==> TypeCodeValid(v.children[FirstValueIndex(v.children).value])
  }

  /** One `Variable` element: type code and value come from its first
      `VariableValue` child, if any; `ReadOnly` counts only as the exact
      text `True`. */
  function VariableOf(v: Node): Variable
    requires VariableValid(v)
  {
    var k := FirstValueIndex(v.children);
    Variable(
      GetAttrOr(v, "ObjectName", "Unknown"), GetAttrOr(v, "Namespace", "User"), GetAttrOr(v, "DTSID", ""),
      if k.Some? then TypeCode(v.children[k.value]) else DefaultTypeCode,
      if k.Some? then v.children[k.value].text else None,
      GetAttr(v, "Expression", None), None, GetAttrOr(v, "ReadOnly", "False") == "True", false)
  }

  /** A variable without a `VariableValue` child is a string with no value. */
  lemma VariableWithoutValue(v: Node)
    requires forall c :: c in v.children ==> !Contains(c.tag, "VariableValue")
    ensures VariableOf(v).dataType == DefaultTypeCode && FromCode(VariableOf(v).dataType) == Some(DataType.String)
    ensures VariableOf(v).value == None
  {
  }

  /** The value and type code are those of the first `VariableValue`
      child; later ones are ignored. */
  lemma VariableFromFirstValue(v: Node, k: nat)
    requires VariableValid(v)
    requires k < |v.children| && Contains(v.children[k].tag, "VariableValue")
    requires forall j :: 0 <= j < k ==> !Contains(v.children[j].tag, "VariableValue")
    ensures TypeCodeValid(v.children[k])
    ensures VariableOf(v).value == v.children[k].text && VariableOf(v).dataType == TypeCode(v.children[k])
  {
    var r := FirstValueIndex(v.children);
    assert r.Some?;
    if r.value < k {
    } else if r.value > k {
    }
  }

  /** The body of the `for var in elem` loop. */
  method ParseVariable(v: Node) returns (variable: Variable)
    requires VariableValid(v)
    ensures variable == VariableOf(v)
  {
    var value: Option<string> := None;
    var dataType := DefaultTypeCode;
    var k := 0;
    while k < |v.children|
      invariant 0 <= k <= |v.children|
      invariant forall j :: 0 <= j < k ==> !Contains(v.children[j].tag, "VariableValue")
      invariant value == None && dataType == DefaultTypeCode
    {
      var child := v.children[k];
      if Contains(child.tag, "VariableValue") {
        VariableFromFirstValue(v, k);
        dataType := TypeCode(child);
        value := child.text;
        break;
      }
      k := k + 1;
    }
    variable := Variable(
      GetAttrOr(v, "ObjectName", "Unknown"), GetAttrOr(v, "Namespace", "User"), GetAttrOr(v, "DTSID", ""),
      dataType, value, GetAttr(v, "Expression", None), None, GetAttrOr(v, "ReadOnly", "False") == "True", false);
  }

  /** A variables container: its tag ends with `Variables` but not with
      `PackageVariables`. */
  predicate IsVariables(e: Node) {
    EndsWith(e.tag, "Variables") && !EndsWith(e.tag, "PackageVariables")
  }

  predicate MembersValid(e: Node) {
    forall v :: v in e.children && Contains(v.tag, "Variable") ==> VariableValid(v)
  }

  /** Every variable the walk reads has readable type codes. */
  predicate VariablesValid(nodes: seq<Node>) {
    forall e :: e in nodes && IsVariables(e) ==> MembersValid(e)
  }

  function MembersIn(acc: seq<Variable>, ms: seq<Node>): seq<Variable>
    requires forall v :: v in ms && Contains(v.tag, "Variable") ==> VariableValid(v)
    decreases |ms|
  {
    if ms == [] then acc
    else
      var prev := MembersIn(acc, ms[..|ms| - 1]);
      var v := ms[|ms| - 1];
      if Contains(v.tag, "Variable") then prev + [VariableOf(v)] else prev
  }

  /** The outer loop over `root.iter()`. */
  function VariablesIn(acc: seq<Variable>, nodes: seq<Node>): seq<Variable>
    requires VariablesValid(nodes)
    decreases |nodes|
  {
    if nodes == [] then acc
    else
      var prev := VariablesIn(acc, nodes[..|nodes| - 1]);
      var e := nodes[|nodes| - 1];
      if IsVariables(e) then assert e in nodes && MembersValid(e); MembersIn(prev, e.children) else prev
  }

  /** Every variable comes from a member of a variables container, and
      every such member yields one. */
  lemma {:induction false} MembersInMembers(acc: seq<Variable>, ms: seq<Node>)
    requires forall v :: v in ms && Contains(v.tag, "Variable") ==> VariableValid(v)
    ensures forall x :: x in MembersIn(acc, ms) <==> x in acc || exists v :: v in ms && Contains(v.tag, "Variable") && x == VariableOf(v)
    decreases |ms|
  {
    if ms != [] {
      var init := ms[..|ms| - 1];
      MembersInMembers(acc, init);
      assert ms == init + [ms[|ms| - 1]];
    }
  }

  /** `x` is the variable of some member of the container `e`. */
  predicate DeclaredIn(e: Node, x: Variable)
    requires MembersValid(e)
  {
    exists v :: v in e.children && Contains(v.tag, "Variable") && x == VariableOf(v)
  }

  lemma {:induction false} VariablesInMembers(acc: seq<Variable>, nodes: seq<Node>)
    requires VariablesValid(nodes)
    ensures forall x :: x in VariablesIn(acc, nodes) <==> x in acc || exists e :: e in nodes && IsVariables(e) && DeclaredIn(e, x)
    decreases |nodes|
  {
    if nodes != [] {
      var init := nodes[..|nodes| - 1];
      var e := nodes[|nodes| - 1];
      VariablesInMembers(acc, init);
      assert nodes == init + [e];
      if IsVariables(e) {
        assert e in nodes;
        MembersInMembers(VariablesIn(acc, init), e.children);
      }
    }
  }

  /** A package variables container (`...PackageVariables`) is skipped. */
  lemma PackageVariablesSkipped(acc: seq<Variable>, nodes: seq<Node>, e: Node)
    requires VariablesValid(nodes) && EndsWith(e.tag, "PackageVariables")
    ensures VariablesValid(nodes + [e])
    ensures VariablesIn(acc, nodes + [e]) == VariablesIn(acc, nodes)
  {
    assert (nodes + [e])[..|nodes|] == nodes;
  }

  method ParseMembers(e: Node, acc: seq<Variable>) returns (acc': seq<Variable>)
    requires MembersValid(e)
    ensures acc' == MembersIn(acc, e.children)
  {
    acc' := acc;
    var j := 0;
    while j < |e.children|
      invariant 0 <= j <= |e.children|
      invariant acc' == MembersIn(acc, e.children[..j])
    {
      var v := e.children[j];
      assert e.children[..j + 1][..j] == e.children[..j];
      if Contains(v.tag, "Variable") {
        var variable := ParseVariable(v);
        acc' := acc' + [variable];
      }
      j := j + 1;
    }
    assert e.children[..j] == e.children;
  }

  /** `_parse_variables`. */
  method ParseVariables(root: Node) returns (variables: seq<Variable>)
    requires VariablesValid(Iter(root))
    ensures variables == VariablesIn([], Iter(root))
  {
    var nodes := Iter(root);
    variables := [];
    var i := 0;
    while i < |nodes|
      invariant 0 <= i <= |nodes|
      invariant VariablesValid(nodes[..i])
      invariant variables == VariablesIn([], nodes[..i])
    {
      var e := nodes[i];
      assert nodes[..i + 1][..i] == nodes[..i];
      if IsVariables(e) {
        assert e in nodes;
        variables := ParseMembers(e, variables);
      }
      i := i + 1;
    }
    assert nodes[..i] == nodes;
  }

  // ---------------------------------------------------------------------
  // Parameters

  /** A `Property` child named `ParameterValue` holds the parameter's value. */
  predicate IsParameterValue(c: Node) {
    Contains(c.tag, "Property") && GetAttr(c, "Name", None) == Some("ParameterValue")
  }

  /** The index of the first value child, where the inner loop breaks. */
  function FirstParameterValue(cs: seq<Node>): (r: Option<nat>)
    ensures r.Some? ==> r.value < |cs| && IsParameterValue(cs[r.value])
    ensures r.Some? ==> forall j :: 0 <= j < r.value ==> !IsParameterValue(cs[j])
    ensures r.None? ==> forall j :: 0 <= j < |cs| ==> !IsParameterValue(cs[j])
  {
    if cs == [] then None
    else if IsParameterValue(cs[0]) then Some(0)
    else
      var r := FirstParameterValue(cs[1..]);
      assert forall j :: 1 <= j < |cs| ==> cs[j] == cs[1..][j - 1];
      if r.Some? then Some(r.value + 1) else None
  }

  /** One `PackageParameter` element: `Sensitive` and `Required` count only
      as the exact text `1`. */
  function ParameterOf(p: Node): Parameter
    requires TypeCodeValid(p)
  {
    var k := FirstParameterValue(p.children);
    Parameter(GetAttrOr(p, "ObjectName", "Unknown"), GetAttrOr(p, "DTSID", ""), TypeCode(p),
              if k.Some? then p.children[k.value].text else None, None,
              GetAttrOr(p, "Sensitive", "0") == "1", GetAttrOr(p, "Required", "0") == "1")
  }

  /** A parameter without a `DataType` attribute is a string. */
  lemma ParameterDefaultType(p: Node)
    requires GetAttr(p, "DataType", None).None?
    ensures ParameterOf(p).dataType == DefaultTypeCode && FromCode(ParameterOf(p).dataType) == Some(DataType.String)
  {
  }

  /** The body of the `for param in elem` loop. */
  method ParseParameter(p: Node) returns (parameter: Parameter)
    requires TypeCodeValid(p)
    ensures parameter == ParameterOf(p)
  {
    var value: Option<string> := None;
    var k := 0;
    while k < |p.children|
      invariant 0 <= k <= |p.children|
      invariant forall j :: 0 <= j < k ==> !IsParameterValue(p.children[j])
      invariant value == None
    {
      var child := p.children[k];
      if Contains(child.tag, "Property") && GetAttr(child, "Name", None) == Some("ParameterValue") {
        assert FirstParameterValue(p.children) == Some(k);
        value := child.text;
        break;
      }
      k := k + 1;
    }
    parameter := Parameter(GetAttrOr(p, "ObjectName", "Unknown"), GetAttrOr(p, "DTSID", ""), TypeCode(p), value, None,
                           GetAttrOr(p, "Sensitive", "0") == "1", GetAttrOr(p, "Required", "0") == "1");
  }

  predicate ParameterMembersValid(e: Node) {
    forall p :: p in e.children && Contains(p.tag, "PackageParameter") ==> TypeCodeValid(p)
  }

  predicate ParametersValid(nodes: seq<Node>) {
    forall e :: e in nodes && Contains(e.tag, "PackageParameters") ==> ParameterMembersValid(e)
  }

  function ParameterMembersIn(acc: seq<Parameter>, ms: seq<Node>): seq<Parameter>
    requires forall p :: p in ms && Contains(p.tag, "PackageParameter") ==> TypeCodeValid(p)
    decreases |ms|
  {
    if ms == [] then acc
    else
      var prev := ParameterMembersIn(acc, ms[..|ms| - 1]);
      var p := ms[|ms| - 1];
      if Contains(p.tag, "PackageParameter") then prev + [ParameterOf(p)] else prev
  }

  /** The outer loop over `root.iter()`. */
  function ParametersIn(acc: seq<Parameter>, nodes: seq<Node>): seq<Parameter>
    requires ParametersValid(nodes)
    decreases |nodes|
  {
    if nodes == [] then acc
    else
      var prev := ParametersIn(acc, nodes[..|nodes| - 1]);
      var e := nodes[|nodes| - 1];
      if Contains(e.tag, "PackageParameters") then assert e in nodes && ParameterMembersValid(e); ParameterMembersIn(prev, e.children) else prev
  }

  lemma {:induction false} ParameterMembersInMembers(acc: seq<Parameter>, ms: seq<Node>)
    requires forall p :: p in ms && Contains(p.tag, "PackageParameter") ==> TypeCodeValid(p)
    ensures forall x :: x in ParameterMembersIn(acc, ms) <==> x in acc || exists p :: p in ms && Contains(p.tag, "PackageParameter") && x == ParameterOf(p)
    decreases |ms|
  {
    if ms != [] {
      var init := ms[..|ms| - 1];
      ParameterMembersInMembers(acc, init);
      assert ms == init + [ms[|ms| - 1]];
    }
  }

  method ParseParameterMembers(e: Node, acc: seq<Parameter>) returns (acc': seq<Parameter>)
    requires ParameterMembersValid(e)
    ensures acc' == ParameterMembersIn(acc, e.children)
  {
    acc' := acc;
    var j := 0;
    while j < |e.children|
      invariant 0 <= j <= |e.children|
      invariant acc' == ParameterMembersIn(acc, e.children[..j])
    {
      var p := e.children[j];
      assert e.children[..j + 1][..j] == e.children[..j];
      if Contains(p.tag, "PackageParameter") {
        var parameter := ParseParameter(p);
        acc' := acc' + [parameter];
      }
      j := j + 1;
    }
    assert e.children[..j] == e.children;
  }

  /** `_parse_parameters`. */
  method ParseParameters(root: Node) returns (parameters: seq<Parameter>)
    requires ParametersValid(Iter(root))
    ensures parameters == ParametersIn([], Iter(root))
  {
    var nodes := Iter(root);
    parameters := [];
    var i := 0;
    while i < |nodes|
      invariant 0 <= i <= |nodes|
      invariant ParametersValid(nodes[..i])
      invariant parameters == ParametersIn([], nodes[..i])
    {
      var e := nodes[i];
      assert nodes[..i + 1][..i] == nodes[..i];
      if Contains(e.tag, "PackageParameters") {
        assert e in nodes;
        parameters := ParseParameterMembers(e, parameters);
      }
      i := i + 1;
    }
    assert nodes[..i] == nodes;
  }

  // ---------------------------------------------------------------------
  // Thresholds

  /** The name patterns and their categories, in the order they are tried. */
  const ThresholdPatterns: seq<(string, string)> := [
    ("Threshold", "General"), ("Limit", "General"), ("Max", "Performance"), ("Min", "Performance"),
    ("Score", "Fraud"), ("Window", "Time"), ("Batch", "Performance"), ("Fraud", "Fraud"), ("Compliance", "Compliance")]

  predicate MatchesPattern(name: string, k: nat)
    requires k < |ThresholdPatterns|
  {
    Contains(Lower(name), Lower(ThresholdPatterns[k].0))
  }

  /** The first pattern from `from` on that occurs in the name, ignoring case. */
  function FirstPattern(name: string, from: nat): (r: Option<nat>)
    requires from <= |ThresholdPatterns|
    ensures r.Some? ==> from <= r.value < |ThresholdPatterns| && MatchesPattern(name, r.value)
    ensures r.Some? ==> forall j :: from <= j < r.value ==> !MatchesPattern(name, j)
    ensures r.None? ==> forall j :: from <= j < |ThresholdPatterns| ==> !MatchesPattern(name, j)
    decreases |ThresholdPatterns| - from
  {
    if from == |ThresholdPatterns| then None
    else if MatchesPattern(name, from) then Some(from)
    else FirstPattern(name, from + 1)
  }

  /** The category of a variable name: that of the first matching pattern. */
  function ThresholdCategory(name: string): (r: Option<string>)
    ensures r.None? <==> forall j :: 0 <= j < |ThresholdPatterns| ==> !MatchesPattern(name, j)
    ensures r.Some? ==> exists k :: (0 <= k < |ThresholdPatterns| && MatchesPattern(name, k) && r.value == ThresholdPatterns[k].1
                                     && forall j :: 0 <= j < k ==> !MatchesPattern(name, j))
  {
    var k := FirstPattern(name, 0);
    if k.Some? then Some(ThresholdPatterns[k.value].1) else None
  }

  function ThresholdOf(v: Variable, category: string): Threshold {
    Threshold(v.name, v.value, IntToString(v.dataType), Some("Variable from namespace " + v.namespace), category, None)
  }

  /** The thresholds of `_extract_thresholds`, grown variable by variable. */
  function Thresholds(vars: seq<Variable>): seq<Threshold>
    decreases |vars|
  {
    if vars == [] then []
    else
      var v := vars[|vars| - 1];
      var category := ThresholdCategory(v.name);
      Thresholds(vars[..|vars| - 1]) + (if category.Some? then [ThresholdOf(v, category.value)] else [])
  }

  /** The first matching pattern decides the category. */
  lemma FirstMatchDecides(name: string, k: nat)
    requires k < |ThresholdPatterns| && MatchesPattern(name, k)
    requires forall j :: 0 <= j < k ==> !MatchesPattern(name, j)
    ensures ThresholdCategory(name) == Some(ThresholdPatterns[k].1)
  {
    var r := FirstPattern(name, 0);
  }

  /** The inner loop of `_extract_thresholds`: try the patterns in order and
      stop at the first that matches. */
  method MatchCategory(name: string) returns (category: Option<string>)
    ensures category == ThresholdCategory(name)
  {
    category := None;
    var k := 0;
    while k < |ThresholdPatterns|
      invariant 0 <= k <= |ThresholdPatterns|
      invariant forall j :: 0 <= j < k ==> !MatchesPattern(name, j)
      invariant category == None
    {
      var (pattern, c) := ThresholdPatterns[k];
      if Contains(Lower(name), Lower(pattern)) {
        FirstMatchDecides(name, k);
        category := Some(c);
        break;
      }
      k := k + 1;
    }
  }

  /** `_extract_thresholds`. */
  method ExtractThresholds(variables: seq<Variable>) returns (thresholds: seq<Threshold>)
    ensures thresholds == Thresholds(variables)
  {
    thresholds := [];
    var i := 0;
    while i < |variables|
      invariant 0 <= i <= |variables|
      invariant thresholds == Thresholds(variables[..i])
    {
      var v := variables[i];
      assert variables[..i + 1][..i] == variables[..i];
      var category := MatchCategory(v.name);
      if category.Some? {
        thresholds := thresholds + [ThresholdOf(v, category.value)];
      }
      i := i + 1;
    }
    assert variables[..i] == variables;
  }

  lemma {:induction false} ThresholdsAppend(a: seq<Variable>, b: seq<Variable>)
    ensures Thresholds(a + b) == Thresholds(a) + Thresholds(b)
    decreases |b|
  {
    if b != [] {
      var init := b[..|b| - 1];
      ThresholdsAppend(a, init);
      assert (a + b)[..|a + b| - 1] == a + init;
    } else {
      assert a + b == a;
    }
  }

  /** Each variable yields at most one threshold, in variable order: the
      result is the concatenation of the variables' own results. */
  lemma ThresholdsPerVariable(vars: seq<Variable>, v: Variable)
    ensures |Thresholds([v])| <= 1
    ensures Thresholds(vars + [v]) == Thresholds(vars) + Thresholds([v])
    ensures |Thresholds(vars)| <= |vars|
  {
    ThresholdsAppend(vars, [v]);
    ThresholdsShorter(vars);
  }

  lemma {:induction false} ThresholdsShorter(vars: seq<Variable>)
    ensures |Thresholds(vars)| <= |vars|
    decreases |vars|
  {
    if vars != [] {
      ThresholdsShorter(vars[..|vars| - 1]);
    }
  }

  /** A threshold is produced exactly for each variable whose name matches
      some pattern, with that variable's name, value and category. */
  lemma {:induction false} ThresholdMembers(vars: seq<Variable>)
    ensures forall t :: t in Thresholds(vars) <==>
      exists v :: v in vars && ThresholdCategory(v.name).Some? && t == ThresholdOf(v, ThresholdCategory(v.name).value)
    decreases |vars|
  {
    if vars != [] {
      var init := vars[..|vars| - 1];
      ThresholdMembers(init);
      assert vars == init + [vars[|vars| - 1]];
    }
  }

  lemma NoFirstChar(s: string, sub: string)
    requires sub != [] && sub[0] !in s
    ensures !Contains(s, sub)
  {
  }

  /** `MaxFraudScore` holds three patterns; `Max` comes first, so it is a
      performance threshold rather than a fraud one. */
  lemma MaxFraudScoreIsPerformance()
    ensures ThresholdCategory("MaxFraudScore") == Some("Performance")
  {
    var lower := Lower("MaxFraudScore");
    assert lower == "maxfraudscore";
    NoFirstChar(lower, Lower("Threshold"));
    NoFirstChar(lower, Lower("Limit"));
    assert Lower("Max") == "max";
    assert "max" <= lower[0..];
    assert FirstPattern("MaxFraudScore", 0) == Some(2);
  }
}
