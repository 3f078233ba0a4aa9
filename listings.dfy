/** The two text listings of `DiagramGenerator`
    (dtsx_parser/diagram_generator.py): the execution order of the
    control-flow stages and the routing logic of the data-flow tasks. Each
    is a method that builds its lines in loops, proved equal to a function
    describing the whole listing. */
module Listings {
  import opened Basics
  import opened Text
  import opened Models
  import opened DiagramNames
  import opened AsciiDiagrams

  // ---------------------------------------------------------------------
  // Execution order

  /** `- name` for each task of a stage. */
  function TaskLines(tasks: seq<TaskInfo>): (r: seq<string>)
    ensures |r| == |tasks|
  {
    seq(|tasks|, i requires 0 <= i < |tasks| => "           - " + tasks[i].name)
  }

  /** The block of the stage listed as step `step`. */
  function StepLines(s: ControlFlowStage, step: nat): seq<string> {
    ["Step " + NatToString(step) + ": " + s.name, "         Type: " + s.stageType] +
    (if Truthy(s.description) then ["         Description: " + s.description.value] else []) +
    (if Truthy(s.condition) then ["         Condition: " + StripVariableRefs(s.condition.value)] else []) +
    (if s.tasks != [] then ["         Tasks:"] + TaskLines(s.tasks) else []) +
    [""]
  }

  /** The blocks of the first `k` stages, numbered from 1. */
  function StepListing(stages: seq<ControlFlowStage>, k: nat): seq<string>
    requires k <= |stages|
  {
    if k == 0 then [] else StepListing(stages, k - 1) + StepLines(stages[k - 1], k)
  }

  function ExecutionOrder(stages: seq<ControlFlowStage>): seq<string> {
    Banner(60, " EXECUTION ORDER") + StepListing(stages, |stages|)
  }

  /** What the listing shows of a stage. */
  function Shown(s: ControlFlowStage): (string, string, Option<string>, Option<string>, seq<TaskInfo>) {
    (s.name, s.stageType, s.description, s.condition, s.tasks)
  }

  /** Steps are numbered by list position: the stages' own `order` and
      their precedence lists do not affect the listing. */
  lemma {:induction false} StepListingPositional(a: seq<ControlFlowStage>, b: seq<ControlFlowStage>, k: nat)
    requires k <= |a| == |b|
    requires forall i :: 0 <= i < |a| ==> Shown(a[i]) == Shown(b[i])
    ensures StepListing(a, k) == StepListing(b, k)
  {
    if k > 0 {
      StepListingPositional(a, b, k - 1);
      assert Shown(a[k - 1]) == Shown(b[k - 1]);
    }
  }

  lemma ExecutionOrderPositional(a: seq<ControlFlowStage>, b: seq<ControlFlowStage>)
    requires |a| == |b|
    requires forall i :: 0 <= i < |a| ==> Shown(a[i]) == Shown(b[i])
    ensures ExecutionOrder(a) == ExecutionOrder(b)
  {
    StepListingPositional(a, b, |a|);
  }

  /** The listing's condition keeps `==`, where the diagram label shows
      `=`: without variable references the condition is shown as is. */
  lemma ConditionKeepsEquality(expr: string)
    requires !Contains(expr, "@[User::") && ']' !in expr
    ensures StripVariableRefs(expr) == expr
    ensures CleanLabel(expr) == Replace(expr, "==", "=")
  {
    ReplaceAbsent(expr, "@[User::", "");
    ContainsChar(expr, ']');
    ReplaceAbsent(expr, "]", "");
  }

  method ShowTasks(tasks: seq<TaskInfo>) returns (ls: seq<string>)
    ensures ls == TaskLines(tasks)
  {
    ls := [];
    for j := 0 to |tasks|
      invariant |ls| == j
      invariant forall i :: 0 <= i < j ==> ls[i] == "           - " + tasks[i].name
    {
      ls := ls + ["           - " + tasks[j].name];
    }
  }

  method ShowStep(stage: ControlFlowStage, currentOrder: nat) returns (block: seq<string>)
    ensures block == StepLines(stage, currentOrder)
  {
    block := ["Step " + NatToString(currentOrder) + ": " + stage.name, "         Type: " + stage.stageType];
    if Truthy(stage.description) {
      block := block + ["         Description: " + stage.description.value];
    }
    if Truthy(stage.condition) {
      var cond := StripVariableRefs(stage.condition.value);
      block := block + ["         Condition: " + cond];
    }
    if stage.tasks != [] {
      var taskLines := ShowTasks(stage.tasks);
      block := block + ["         Tasks:"] + taskLines;
    }
    block := block + [""];
  }

  /** `generate_execution_order_diagram`. */
  method ExecutionOrderDiagram(stages: seq<ControlFlowStage>) returns (text: string)
    ensures text == Join(ExecutionOrder(stages), "\n")
  {
    var body := [];
    var currentOrder := 1;
    for i := 0 to |stages|
      invariant currentOrder == i + 1
      invariant body == StepListing(stages, i)
    {
      var block := ShowStep(stages[i], currentOrder);
      body := body + block;
      currentOrder := currentOrder + 1;
    }
    text := Join(Banner(60, " EXECUTION ORDER") + body, "\n");
  }

  // ---------------------------------------------------------------------
  // Routing logic

  /** The destination a path from a route leads to, when the path's source
      ref mentions the route and its destination resolves. */
  function RouteTarget(name: string, p: DataFlowPath, cs: seq<DataFlowComponent>): Option<string> {
    if Contains(p.sourceRefId, name) then
      var dest := ExtractComponentName(p.destinationRefId, cs);
      if Truthy(dest) then Some(dest.value) else None
    else None
  }

  /** The condition line of a route: the default marker, else the
      friendly expression, else the raw one, else none. */
  function ConditionLine(o: ConditionalOutput): seq<string> {
    if o.isDefault then ["      Condition: DEFAULT (all unmatched rows)"]
    else if Truthy(o.friendlyExpression) then ["      Condition: " + o.friendlyExpression.value]
    else if Truthy(o.expression) then ["      Condition: " + o.expression.value]
    else []
  }

  /** The destination lines of a route, in path order. */
  function DestinationLines(name: string, paths: seq<DataFlowPath>, cs: seq<DataFlowComponent>): seq<string>
    decreases |paths|
  {
    if paths == [] then []
    else
      var t := RouteTarget(name, paths[|paths| - 1], cs);
      DestinationLines(name, paths[..|paths| - 1], cs) + if t.Some? then ["      Destination: " + t.value] else []
  }

  function RouteLines(o: ConditionalOutput, i: nat, paths: seq<DataFlowPath>, cs: seq<DataFlowComponent>): seq<string> {
    ["    Route " + NatToString(i) + ": " + o.name] + ConditionLine(o) +
    DestinationLines(o.name, paths, cs) + [""]
  }

  /** The routes of the first `k` conditional outputs, numbered from 1. */
  function RouteListing(outs: seq<ConditionalOutput>, k: nat, paths: seq<DataFlowPath>, cs: seq<DataFlowComponent>): seq<string>
    requires k <= |outs|
  {
    if k == 0 then [] else RouteListing(outs, k - 1, paths, cs) + RouteLines(outs[k - 1], k, paths, cs)
  }

  /** A default route shows the default marker whatever its expressions. */
  lemma DefaultRouteHidesExpressions(o: ConditionalOutput, e: Option<string>, f: Option<string>)
    requires o.isDefault
    ensures ConditionLine(o) == ["      Condition: DEFAULT (all unmatched rows)"]
    ensures ConditionLine(o.(expression := e, friendlyExpression := f)) == ConditionLine(o)
  {
  }

  /** A non-default route with a friendly expression shows it, whatever
      the raw expression is. */
  lemma FriendlyPreferred(o: ConditionalOutput, e: Option<string>)
    requires !o.isDefault && Truthy(o.friendlyExpression)
    ensures ConditionLine(o) == ["      Condition: " + o.friendlyExpression.value]
    ensures ConditionLine(o.(expression := e)) == ConditionLine(o)
  {
  }

  /** A route lists a destination exactly for the paths whose source ref
      mentions the route and whose destination resolves. */
  lemma {:induction false} RouteDestinations(name: string, paths: seq<DataFlowPath>, cs: seq<DataFlowComponent>, d: string)
    ensures "      Destination: " + d in DestinationLines(name, paths, cs) <==>
      exists i :: 0 <= i < |paths| && RouteTarget(name, paths[i], cs) == Some(d)
    decreases |paths|
  {
    if paths != [] {
      var init := paths[..|paths| - 1];
      RouteDestinations(name, init, cs, d);
      assert forall i :: 0 <= i < |init| ==> init[i] == paths[i];
      var t := RouteTarget(name, paths[|paths| - 1], cs);
      if t.Some? && "      Destination: " + t.value == "      Destination: " + d {
        assert t.value == ("      Destination: " + t.value)[19..];
      }
    }
  }

  /** The line of a path leaving a lookup. */
  function LookupLine(name: string, p: DataFlowPath, cs: seq<DataFlowComponent>): seq<string> {
    var t := RouteTarget(name, p, cs);
    if t.None? then []
    else if Contains(p.name, "Match") then ["      -> Match goes to: " + t.value]
    else if Contains(p.name, "NoMatch") || Contains(p.name, "No Match") then ["      -> No Match goes to: " + t.value]
    else []
  }

  function LookupLines(name: string, paths: seq<DataFlowPath>, cs: seq<DataFlowComponent>): seq<string>
    decreases |paths|
  {
    if paths == [] then []
    else LookupLines(name, paths[..|paths| - 1], cs) + LookupLine(name, paths[|paths| - 1], cs)
  }

  /** `Match` is tested first and occurs in both `NoMatch` and `No Match`,
      so a lookup path is only ever shown as a match. */
  lemma LookupNoMatchUnreachable(name: string, p: DataFlowPath, cs: seq<DataFlowComponent>)
    ensures LookupLine(name, p, cs) != [] ==>
      LookupLine(name, p, cs) == ["      -> Match goes to: " + RouteTarget(name, p, cs).value]
  {
    if Contains(p.name, "NoMatch") || Contains(p.name, "No Match") {
      NoMatchMentionsMatch(p.name);
    }
  }

  /** Both spellings of a no-match output contain `Match`. */
  lemma NoMatchMentionsMatch(s: string)
    requires Contains(s, "NoMatch") || Contains(s, "No Match")
    ensures Contains(s, "Match")
  {
    ContainsSelf("Match");
    if Contains(s, "NoMatch") {
      ContainsRight("No", "Match", "Match");
      assert "No" + "Match" == "NoMatch";
      ContainsTransitive(s, "NoMatch", "Match");
    } else {
      ContainsRight("No ", "Match", "Match");
      assert "No " + "Match" == "No Match";
      ContainsTransitive(s, "No Match", "Match");
    }
  }

  /** Every line a lookup prints about its paths is a "Match goes to"
      line. */
  lemma {:induction false} LookupLinesAllMatch(name: string, paths: seq<DataFlowPath>, cs: seq<DataFlowComponent>)
    ensures forall l :: l in LookupLines(name, paths, cs) ==> "      -> Match goes to: " <= l
    decreases |paths|
  {
    if paths != [] {
      var last := paths[|paths| - 1];
      LookupLinesAllMatch(name, paths[..|paths| - 1], cs);
      LookupNoMatchUnreachable(name, last, cs);
    }
  }

  /** The lookup line as the listing is evidently meant to read: the more
      specific `NoMatch` / `No Match` tests come before `Match`. */
  function IntendedLookupLine(name: string, p: DataFlowPath, cs: seq<DataFlowComponent>): seq<string> {
    var t := RouteTarget(name, p, cs);
    if t.None? then []
    else if Contains(p.name, "NoMatch") || Contains(p.name, "No Match") then ["      -> No Match goes to: " + t.value]
    else if Contains(p.name, "Match") then ["      -> Match goes to: " + t.value]
    else []
  }

  function IntendedLookupLines(name: string, paths: seq<DataFlowPath>, cs: seq<DataFlowComponent>): seq<string>
    decreases |paths|
  {
    if paths == [] then []
    else IntendedLookupLines(name, paths[..|paths| - 1], cs) + IntendedLookupLine(name, paths[|paths| - 1], cs)
  }

  /** A resolved no-match path is shown as a no-match by the intended
      line, and as a match by the line as written. */
  lemma IntendedLookupNoMatch(name: string, p: DataFlowPath, cs: seq<DataFlowComponent>, d: string)
    requires RouteTarget(name, p, cs) == Some(d)
    requires Contains(p.name, "NoMatch") || Contains(p.name, "No Match")
    ensures IntendedLookupLine(name, p, cs) == ["      -> No Match goes to: " + d]
    ensures LookupLine(name, p, cs) == ["      -> Match goes to: " + d]
  {
    NoMatchMentionsMatch(p.name);
  }

  /** A resolved path named only as a match is shown the same way by both
      lines. */
  lemma IntendedLookupMatch(name: string, p: DataFlowPath, cs: seq<DataFlowComponent>, d: string)
    requires RouteTarget(name, p, cs) == Some(d)
    requires Contains(p.name, "Match")
    requires !Contains(p.name, "NoMatch") && !Contains(p.name, "No Match")
    ensures IntendedLookupLine(name, p, cs) == ["      -> Match goes to: " + d]
    ensures LookupLine(name, p, cs) == IntendedLookupLine(name, p, cs)
  {
  }

  /** A lookup with one resolved match path and one resolved no-match
      path lists one line of each kind when intended, and two match lines
      as written. */
  lemma IntendedLookupBothOutputs(name: string, pm: DataFlowPath, pn: DataFlowPath, cs: seq<DataFlowComponent>, dm: string, dn: string)
    requires RouteTarget(name, pm, cs) == Some(dm) && RouteTarget(name, pn, cs) == Some(dn)
    requires Contains(pm.name, "Match") && !Contains(pm.name, "NoMatch") && !Contains(pm.name, "No Match")
    requires Contains(pn.name, "NoMatch") || Contains(pn.name, "No Match")
    ensures IntendedLookupLines(name, [pm, pn], cs) ==
      ["      -> Match goes to: " + dm, "      -> No Match goes to: " + dn]
    ensures LookupLines(name, [pm, pn], cs) ==
      ["      -> Match goes to: " + dm, "      -> Match goes to: " + dn]
  {
    IntendedLookupMatch(name, pm, cs, dm);
    IntendedLookupNoMatch(name, pn, cs, dn);
    assert [pm, pn][..1] == [pm];
    assert [pm][..0] == [];
    assert LookupLines(name, [pm, pn], cs) == LookupLines(name, [pm], cs) + LookupLine(name, pn, cs);
    assert LookupLines(name, [pm], cs) == LookupLine(name, pm, cs);
    assert IntendedLookupLines(name, [pm, pn], cs) == IntendedLookupLines(name, [pm], cs) + IntendedLookupLine(name, pn, cs);
    assert IntendedLookupLines(name, [pm], cs) == IntendedLookupLine(name, pm, cs);
  }

  function MulticastLines(name: string, paths: seq<DataFlowPath>, cs: seq<DataFlowComponent>): seq<string>
    decreases |paths|
  {
    if paths == [] then []
    else
      var t := RouteTarget(name, paths[|paths| - 1], cs);
      MulticastLines(name, paths[..|paths| - 1], cs) + if t.Some? then ["      -> " + t.value] else []
  }

  /** A multicast lists a destination exactly for the paths whose source
      ref mentions it and whose destination resolves. */
  lemma {:induction false} MulticastDestinations(name: string, paths: seq<DataFlowPath>, cs: seq<DataFlowComponent>, d: string)
    ensures "      -> " + d in MulticastLines(name, paths, cs) <==>
      exists i :: 0 <= i < |paths| && RouteTarget(name, paths[i], cs) == Some(d)
    decreases |paths|
  {
    if paths != [] {
      var init := paths[..|paths| - 1];
      MulticastDestinations(name, init, cs, d);
      assert forall i :: 0 <= i < |init| ==> init[i] == paths[i];
      var t := RouteTarget(name, paths[|paths| - 1], cs);
      if t.Some? && "      -> " + t.value == "      -> " + d {
        assert t.value == ("      -> " + t.value)[9..];
      }
    }
  }

  /** The outgoing paths of a multicast: every path whose source ref
      mentions it, in path order. */
  function MulticastOutgoing(name: string, paths: seq<DataFlowPath>): seq<DataFlowPath>
    decreases |paths|
  {
    if paths == [] then []
    else
      var p := paths[|paths| - 1];
      MulticastOutgoing(name, paths[..|paths| - 1]) + if Contains(p.sourceRefId, name) then [p] else []
  }

  /** The multicast listing has at most one line per outgoing path, and
      exactly one for each precisely when every outgoing destination
      resolves to a non-empty name: unresolved destinations are the edges
      it leaves out. */
  lemma {:induction false} MulticastListsResolvedOutgoing(name: string, paths: seq<DataFlowPath>, cs: seq<DataFlowComponent>)
    ensures |MulticastLines(name, paths, cs)| <= |MulticastOutgoing(name, paths)|
    ensures (forall i :: 0 <= i < |paths| && Contains(paths[i].sourceRefId, name) ==> RouteTarget(name, paths[i], cs).Some?) <==>
      |MulticastLines(name, paths, cs)| == |MulticastOutgoing(name, paths)|
    decreases |paths|
  {
    if paths != [] {
      var init := paths[..|paths| - 1];
      MulticastListsResolvedOutgoing(name, init, cs);
      assert forall i :: 0 <= i < |init| ==> init[i] == paths[i];
    }
  }

  /** A path is outgoing exactly when it is one of the paths and its source
      ref mentions the multicast. */
  lemma {:induction false} MulticastOutgoingMembers(name: string, paths: seq<DataFlowPath>, p: DataFlowPath)
    ensures p in MulticastOutgoing(name, paths) <==> p in paths && Contains(p.sourceRefId, name)
    decreases |paths|
  {
    if paths != [] {
      var init := paths[..|paths| - 1];
      MulticastOutgoingMembers(name, init, p);
      assert paths == init + [paths[|paths| - 1]];
    }
  }

  /** The routes of a component with conditional outputs. */
  function SplitRouting(c: DataFlowComponent, paths: seq<DataFlowPath>, cs: seq<DataFlowComponent>): seq<string> {
    if c.conditionalOutputs == [] then []
    else
      ["  Routing Component: " + c.name, "  Type: " + LastSegment(c.componentClass, '.'), ""] +
      RouteListing(c.conditionalOutputs, |c.conditionalOutputs|, paths, cs)
  }

  /** The section of a component whose class names a lookup. */
  function LookupRouting(c: DataFlowComponent, paths: seq<DataFlowPath>, cs: seq<DataFlowComponent>): seq<string> {
    if !Contains(c.componentClass, "Lookup") then []
    else
      ["  Lookup: " + c.name,
       "    Match Output: Rows with matching reference data",
       "    No Match Output: Rows without matching reference data"] +
      LookupLines(c.name, paths, cs) + [""]
  }

  /** The section of a component whose class names a multicast. */
  function MulticastRouting(c: DataFlowComponent, paths: seq<DataFlowPath>, cs: seq<DataFlowComponent>): seq<string> {
    if !Contains(c.componentClass, "Multicast") then []
    else
      ["  Multicast: " + c.name, "    Sends all rows to multiple destinations:"] +
      MulticastLines(c.name, paths, cs) + [""]
  }

  /** The routing of one component: its routes, then its lookup and
      multicast sections, each present only when it applies. */
  function ComponentRouting(c: DataFlowComponent, paths: seq<DataFlowPath>, cs: seq<DataFlowComponent>): seq<string> {
    SplitRouting(c, paths, cs) + LookupRouting(c, paths, cs) + MulticastRouting(c, paths, cs)
  }

  /** The routing of the components, in order. */
  function ComponentsRouting(comps: seq<DataFlowComponent>, paths: seq<DataFlowPath>, cs: seq<DataFlowComponent>): seq<string>
    decreases |comps|
  {
    if comps == [] then []
    else ComponentsRouting(comps[..|comps| - 1], paths, cs) + ComponentRouting(comps[|comps| - 1], paths, cs)
  }

  function TaskRouting(dft: DataFlowTask): seq<string> {
    ["Data Flow: " + dft.name, Repeat('-', 50), ""] +
    ComponentsRouting(dft.components, dft.paths, dft.components) + [""]
  }

  function TasksRouting(dfts: seq<DataFlowTask>): seq<string>
    decreases |dfts|
  {
    if dfts == [] then [] else TasksRouting(dfts[..|dfts| - 1]) + TaskRouting(dfts[|dfts| - 1])
  }

  function RoutingLogic(dfts: seq<DataFlowTask>): seq<string> {
    Banner(70, " DATA ROUTING LOGIC") + TasksRouting(dfts)
  }

  /** A component with no conditional outputs and neither `Lookup` nor
      `Multicast` in its class adds nothing to the listing. */
  lemma PlainComponentSilent(c: DataFlowComponent, paths: seq<DataFlowPath>, cs: seq<DataFlowComponent>)
    requires c.conditionalOutputs == []
    requires !Contains(c.componentClass, "Lookup") && !Contains(c.componentClass, "Multicast")
    ensures ComponentRouting(c, paths, cs) == []
  {
  }

  /** The destination loop of one route. */
  method RouteTargets(name: string, paths: seq<DataFlowPath>, cs: seq<DataFlowComponent>) returns (ls: seq<string>)
    ensures ls == DestinationLines(name, paths, cs)
  {
    ls := [];
    for j := 0 to |paths|
      invariant ls == DestinationLines(name, paths[..j], cs)
    {
      var path := paths[j];
      assert paths[..j + 1][..j] == paths[..j];
      if Contains(path.sourceRefId, name) {
        var dest := ExtractComponentName(path.destinationRefId, cs);
        if Truthy(dest) {
          ls := ls + ["      Destination: " + dest.value];
        }
      }
    }
    assert paths[..|paths|] == paths;
  }

  /** The destination loop of a lookup. */
  method LookupTargets(name: string, paths: seq<DataFlowPath>, cs: seq<DataFlowComponent>) returns (ls: seq<string>)
    ensures ls == LookupLines(name, paths, cs)
  {
    ls := [];
    for j := 0 to |paths|
      invariant ls == LookupLines(name, paths[..j], cs)
    {
      var path := paths[j];
      assert paths[..j + 1][..j] == paths[..j];
      if Contains(path.sourceRefId, name) {
        var dest := ExtractComponentName(path.destinationRefId, cs);
        if Truthy(dest) {
          if Contains(path.name, "Match") {
            ls := ls + ["      -> Match goes to: " + dest.value];
          } else if Contains(path.name, "NoMatch") || Contains(path.name, "No Match") {
            ls := ls + ["      -> No Match goes to: " + dest.value];
          }
        }
      }
    }
    assert paths[..|paths|] == paths;
  }

  /** The destination loop of a multicast. */
  method MulticastTargets(name: string, paths: seq<DataFlowPath>, cs: seq<DataFlowComponent>) returns (ls: seq<string>)
    ensures ls == MulticastLines(name, paths, cs)
  {
    ls := [];
    for j := 0 to |paths|
      invariant ls == MulticastLines(name, paths[..j], cs)
    {
      var path := paths[j];
      assert paths[..j + 1][..j] == paths[..j];
      if Contains(path.sourceRefId, name) {
        var dest := ExtractComponentName(path.destinationRefId, cs);
        if Truthy(dest) {
          ls := ls + ["      -> " + dest.value];
        }
      }
    }
    assert paths[..|paths|] == paths;
  }

  /** The route loop of a component with conditional outputs. */
  method ShowRoutes(outs: seq<ConditionalOutput>, paths: seq<DataFlowPath>, cs: seq<DataFlowComponent>) returns (ls: seq<string>)
    ensures ls == RouteListing(outs, |outs|, paths, cs)
  {
    ls := [];
    for i := 0 to |outs|
      invariant ls == RouteListing(outs, i, paths, cs)
    {
      var cond := outs[i];
      var block := ["    Route " + NatToString(i + 1) + ": " + cond.name];
      if cond.isDefault {
        block := block + ["      Condition: DEFAULT (all unmatched rows)"];
      } else if Truthy(cond.friendlyExpression) {
        block := block + ["      Condition: " + cond.friendlyExpression.value];
      } else if Truthy(cond.expression) {
        block := block + ["      Condition: " + cond.expression.value];
      }
      var targets := RouteTargets(cond.name, paths, cs);
      block := block + targets + [""];
      assert block == RouteLines(cond, i + 1, paths, cs);
      ls := ls + block;
    }
  }

  method RouteSplit(comp: DataFlowComponent, paths: seq<DataFlowPath>, cs: seq<DataFlowComponent>) returns (ls: seq<string>)
    ensures ls == SplitRouting(comp, paths, cs)
  {
    ls := [];
    if comp.conditionalOutputs != [] {
      var routes := ShowRoutes(comp.conditionalOutputs, paths, cs);
      ls := ["  Routing Component: " + comp.name, "  Type: " + LastSegment(comp.componentClass, '.'), ""] + routes;
    }
  }

  method RouteLookup(comp: DataFlowComponent, paths: seq<DataFlowPath>, cs: seq<DataFlowComponent>) returns (ls: seq<string>)
    ensures ls == LookupRouting(comp, paths, cs)
  {
    ls := [];
    if Contains(comp.componentClass, "Lookup") {
      var targets := LookupTargets(comp.name, paths, cs);
      ls := ["  Lookup: " + comp.name,
        "    Match Output: Rows with matching reference data",
        "    No Match Output: Rows without matching reference data"] + targets + [""];
    }
  }

  method RouteMulticast(comp: DataFlowComponent, paths: seq<DataFlowPath>, cs: seq<DataFlowComponent>) returns (ls: seq<string>)
    ensures ls == MulticastRouting(comp, paths, cs)
  {
    ls := [];
    if Contains(comp.componentClass, "Multicast") {
      var targets := MulticastTargets(comp.name, paths, cs);
      ls := ["  Multicast: " + comp.name, "    Sends all rows to multiple destinations:"] + targets + [""];
    }
  }

  /** The body of the component loop: the three sections in order. */
  method RouteComponent(comp: DataFlowComponent, paths: seq<DataFlowPath>, cs: seq<DataFlowComponent>) returns (ls: seq<string>)
    ensures ls == ComponentRouting(comp, paths, cs)
  {
    var split := RouteSplit(comp, paths, cs);
    var lookup := RouteLookup(comp, paths, cs);
    var multicast := RouteMulticast(comp, paths, cs);
    ls := split + lookup + multicast;
  }

  /** The component loop of one task. */
  method RouteComponents(comps: seq<DataFlowComponent>, paths: seq<DataFlowPath>, cs: seq<DataFlowComponent>) returns (body: seq<string>)
    ensures body == ComponentsRouting(comps, paths, cs)
  {
    body := [];
    for j := 0 to |comps|
      invariant body == ComponentsRouting(comps[..j], paths, cs)
    {
      var part := RouteComponent(comps[j], paths, cs);
      assert comps[..j + 1][..j] == comps[..j];
      assert ComponentsRouting(comps[..j + 1], paths, cs) == ComponentsRouting(comps[..j], paths, cs) + ComponentRouting(comps[j], paths, cs);
      body := body + part;
    }
    assert comps[..|comps|] == comps;
  }

  method RouteTask(dft: DataFlowTask) returns (ls: seq<string>)
    ensures ls == TaskRouting(dft)
  {
    var body := RouteComponents(dft.components, dft.paths, dft.components);
    ls := ["Data Flow: " + dft.name, Repeat('-', 50), ""] + body + [""];
  }

  /** `generate_routing_logic_diagram`. */
  method RoutingLogicDiagram(dfts: seq<DataFlowTask>) returns (text: string)
    ensures text == Join(RoutingLogic(dfts), "\n")
  {
    var body := [];
    for j := 0 to |dfts|
      invariant body == TasksRouting(dfts[..j])
    {
      var part := RouteTask(dfts[j]);
      assert dfts[..j + 1][..j] == dfts[..j];
      body := body + part;
    }
    assert dfts[..|dfts|] == dfts;
    text := Join(Banner(70, " DATA ROUTING LOGIC") + body, "\n");
  }
}
