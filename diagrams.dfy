/** The diagram builders of `DiagramGenerator`
    (dtsx_parser/diagram_generator.py): the edges of the control-flow and
    data-flow graphs, the Mermaid flowchart text, and the two
    `generate_*_diagram` entry points that bundle the graph with its
    Mermaid and ASCII renderings. */
module Diagrams {
  import opened Basics
  import opened Text
  import opened Models
  import opened DiagramNames
  import opened AsciiDiagrams

  // ---------------------------------------------------------------------
  // Edges

  /** The edge drawn for one raw precedence constraint: stage names from
      both refs, and the cleaned expression as its label, or no label. */
  function ControlFlowEdge(c: PrecedenceConstraint): Edge {
    Edge(ExtractStageName(c.fromRef), ExtractStageName(c.toRef),
      if Truthy(c.expression) then CleanLabel(c.expression.value) else "")
  }

  /** Both ends of a control-flow edge are backslash-free stage names, and
      its label has no `]` and is empty without an expression. */
  lemma ControlFlowEdgeShape(c: PrecedenceConstraint)
    ensures '\\' !in ControlFlowEdge(c).source && '\\' !in ControlFlowEdge(c).dest
    ensures ']' !in ControlFlowEdge(c).caption
    ensures !Truthy(c.expression) ==> ControlFlowEdge(c).caption == ""
  {
  }

  /** One edge per constraint, in order. */
  function ControlFlowEdges(constraints: seq<PrecedenceConstraint>): seq<Edge> {
    MapSeq(constraints, ControlFlowEdge)
  }

  /** Edge `i` is the edge of constraint `i`. */
  lemma ControlFlowEdgesAt(constraints: seq<PrecedenceConstraint>, i: nat)
    requires i < |constraints|
    ensures |ControlFlowEdges(constraints)| == |constraints|
    ensures ControlFlowEdges(constraints)[i] == ControlFlowEdge(constraints[i])
  {
    MapSeqAt(constraints, ControlFlowEdge, i);
  }

  /** The edge of one constraint. */
  method ShowConstraint(constraint: PrecedenceConstraint) returns (edge: Edge)
    ensures edge == ControlFlowEdge(constraint)
  {
    var fromName := ExtractStageName(constraint.fromRef);
    var toName := ExtractStageName(constraint.toRef);
    var caption := "";
    if Truthy(constraint.expression) {
      caption := CleanLabel(constraint.expression.value);
    }
    edge := Edge(fromName, toName, caption);
  }

  /** The path loop of `generate_control_flow_diagram`: one edge per
      constraint, in order. */
  method ControlFlowPaths(constraints: seq<PrecedenceConstraint>) returns (paths: seq<Edge>)
    ensures |paths| == |constraints|
    ensures paths == ControlFlowEdges(constraints)
  {
    paths := [];
    for i := 0 to |constraints|
      invariant paths == ControlFlowEdges(constraints[..i])
    {
      var edge := ShowConstraint(constraints[i]);
      assert constraints[..i + 1][..i] == constraints[..i];
      paths := paths + [edge];
    }
    assert constraints[..|constraints|] == constraints;
  }

  /** The edge of one data-flow path, when both of its endpoints resolve
      to a non-empty component name. */
  function DataFlowEdge(p: DataFlowPath, cs: seq<DataFlowComponent>): (r: Option<Edge>)
    ensures r.Some? <==> Truthy(ExtractComponentName(p.sourceRefId, cs)) && Truthy(ExtractComponentName(p.destinationRefId, cs))
    ensures r.Some? ==> r.value.caption == p.name
  {
    var s := ExtractComponentName(p.sourceRefId, cs);
    var d := ExtractComponentName(p.destinationRefId, cs);
    if Truthy(s) && Truthy(d) then Some(Edge(s.value, d.value, p.name)) else None
  }

  /** Both ends of a graph edge are names of the task's components. */
  lemma DataFlowEdgeNames(p: DataFlowPath, cs: seq<DataFlowComponent>)
    requires DataFlowEdge(p, cs).Some?
    ensures exists i :: 0 <= i < |cs| && DataFlowEdge(p, cs).value.source == cs[i].name
    ensures exists i :: 0 <= i < |cs| && DataFlowEdge(p, cs).value.dest == cs[i].name
  {
  }

  /** The edges of a data-flow task's graph, in path order. */
  function DataFlowEdges(paths: seq<DataFlowPath>, cs: seq<DataFlowComponent>): seq<Edge> {
    Collect(paths, p => DataFlowEdge(p, cs))
  }

  /** An edge is in the graph exactly when some path yields it. */
  lemma DataFlowEdgesMembers(paths: seq<DataFlowPath>, cs: seq<DataFlowComponent>, e: Edge)
    ensures e in DataFlowEdges(paths, cs) <==> exists i :: 0 <= i < |paths| && DataFlowEdge(paths[i], cs) == Some(e)
  {
    CollectMembers(paths, p => DataFlowEdge(p, cs), e);
  }

  /** The graph never has more edges than the task has paths; the ASCII
      path summary has exactly one line per path. */
  lemma GraphDropsListingKeeps(paths: seq<DataFlowPath>, cs: seq<DataFlowComponent>)
    ensures |DataFlowEdges(paths, cs)| <= |paths| == |PathListing(paths, cs)|
  {
    PathListingLines(paths, cs);
  }

  /** When every endpoint resolves, every path becomes an edge, in order. */
  lemma AllResolvedAllKept(paths: seq<DataFlowPath>, cs: seq<DataFlowComponent>)
    requires forall i :: 0 <= i < |paths| ==> DataFlowEdge(paths[i], cs).Some?
    ensures |DataFlowEdges(paths, cs)| == |paths|
    ensures forall i :: 0 <= i < |paths| ==> DataFlowEdges(paths, cs)[i] == DataFlowEdge(paths[i], cs).value
  {
    CollectAll(paths, p => DataFlowEdge(p, cs));
  }

  /** The edge of a path as the graph is evidently meant to keep it:
      whenever both ends resolve to a component, whatever its name. */
  function ResolvedDataFlowEdge(p: DataFlowPath, cs: seq<DataFlowComponent>): Option<Edge> {
    var s := ExtractComponentName(p.sourceRefId, cs);
    var d := ExtractComponentName(p.destinationRefId, cs);
    if s.Some? && d.Some? then Some(Edge(s.value, d.value, p.name)) else None
  }

  /** The intended graph keeps a path exactly when both ends resolve, and
      agrees with the graph as written on every edge the latter keeps. */
  lemma ResolvedEdgeKept(p: DataFlowPath, cs: seq<DataFlowComponent>)
    ensures ResolvedDataFlowEdge(p, cs).Some? <==>
      ExtractComponentName(p.sourceRefId, cs).Some? && ExtractComponentName(p.destinationRefId, cs).Some?
    ensures DataFlowEdge(p, cs).Some? ==> ResolvedDataFlowEdge(p, cs) == DataFlowEdge(p, cs)
  {
  }

  /** A first component with an empty name occurs in every reference, so
      every endpoint resolves to it: the graph as written then drops every
      path, while the intended one keeps each of them. */
  lemma UnnamedFirstComponentDropsAll(p: DataFlowPath, cs: seq<DataFlowComponent>)
    requires |cs| > 0 && cs[0].name == ""
    ensures DataFlowEdge(p, cs).None?
    ensures ResolvedDataFlowEdge(p, cs) == Some(Edge("", "", p.name))
  {
    ContainsEmpty(p.sourceRefId);
    ContainsEmpty(p.destinationRefId);
    FirstDirectMatchWins(p.sourceRefId, cs, 0);
    FirstDirectMatchWins(p.destinationRefId, cs, 0);
  }

  /** The intended graph of a task's paths, in path order. */
  function ResolvedDataFlowEdges(paths: seq<DataFlowPath>, cs: seq<DataFlowComponent>): seq<Edge> {
    Collect(paths, p => ResolvedDataFlowEdge(p, cs))
  }

  /** In the intended graph every path whose two ends resolve yields its
      edge, and every edge comes from such a path. */
  lemma ResolvedEdgesMembers(paths: seq<DataFlowPath>, cs: seq<DataFlowComponent>, e: Edge)
    ensures e in ResolvedDataFlowEdges(paths, cs) <==>
      exists i :: 0 <= i < |paths| && ExtractComponentName(paths[i].sourceRefId, cs) == Some(e.source) &&
        ExtractComponentName(paths[i].destinationRefId, cs) == Some(e.dest) && paths[i].name == e.caption
  {
    CollectMembers(paths, p => ResolvedDataFlowEdge(p, cs), e);
  }

  /** The path loop of `generate_data_flow_diagram`. */
  method DataFlowPaths(paths: seq<DataFlowPath>, cs: seq<DataFlowComponent>) returns (edges: seq<Edge>)
    ensures edges == DataFlowEdges(paths, cs)
  {
    edges := [];
    for j := 0 to |paths|
      invariant edges == DataFlowEdges(paths[..j], cs)
    {
      var path := paths[j];
      var sourceName := ExtractComponentName(path.sourceRefId, cs);
      var destName := ExtractComponentName(path.destinationRefId, cs);
      assert paths[..j + 1][..j] == paths[..j];
      if Truthy(sourceName) && Truthy(destName) {
        edges := edges + [Edge(sourceName.value, destName.value, path.name)];
      }
    }
    assert paths[..|paths|] == paths;
  }

  // ---------------------------------------------------------------------
  // Mermaid

  /** `{comp.name: comp.component_type for comp in components}`: a later
      component overwrites an earlier one of the same name. */
  function ComponentTypes(cs: seq<DataFlowComponent>): (m: map<string, string>)
    decreases |cs|
  {
    if cs == [] then map[]
    else ComponentTypes(cs[..|cs| - 1])[cs[|cs| - 1].name := cs[|cs| - 1].componentType]
  }

  /** A name is typed exactly when some component has it, and its type is
      that of the last such component. */
  lemma {:induction false} ComponentTypesLast(cs: seq<DataFlowComponent>, name: string)
    ensures name in ComponentTypes(cs) <==> exists i :: 0 <= i < |cs| && cs[i].name == name
    ensures name in ComponentTypes(cs) ==> exists i :: (0 <= i < |cs| && cs[i].name == name &&
      ComponentTypes(cs)[name] == cs[i].componentType &&
      forall j :: i < j < |cs| ==> cs[j].name != name)
    decreases |cs|
  {
    if cs != [] {
      var init := cs[..|cs| - 1];
      ComponentTypesLast(init, name);
      assert forall i :: 0 <= i < |init| ==> init[i] == cs[i];
      if cs[|cs| - 1].name == name {
        assert ComponentTypes(cs)[name] == cs[|cs| - 1].componentType;
      } else if name in ComponentTypes(init) {
        var i :| 0 <= i < |init| && init[i].name == name &&
          ComponentTypes(init)[name] == init[i].componentType &&
          forall j :: i < j < |init| ==> init[j].name != name;
        assert forall j :: i < j < |cs| ==> cs[j].name != name;
      }
    }
  }

  /** `component_types.get(comp, 'default')`. */
  function TypeOf(types: map<string, string>, name: string): string {
    if name in types then types[name] else "default"
  }

  datatype Shape = Cylinder | Subroutine | Diamond | Rectangle

  /** The node shape of a component type: the three categories, tested in
      this order, and a rectangle for anything else. */
  function ShapeOf(t: string): (s: Shape)
    ensures s == Cylinder <==> t == "Source"
    ensures s == Subroutine <==> t == "Destination"
    ensures s == Diamond <==> t != "Source" && t != "Destination" && Contains(t, "Transform")
  {
    if t == "Source" then Cylinder
    else if t == "Destination" then Subroutine
    else if Contains(t, "Transform") then Diamond
    else Rectangle
  }

  /** A component with no entry in the type map is a rectangle. */
  lemma UntypedIsRectangle()
    ensures ShapeOf("default") == Rectangle
  {
    assert !Contains("default", "Transform") by {
      NotContainsLonger("default", "Transform");
    }
  }

  function NodeLine(name: string, shape: Shape): string {
    var id := SanitizeId(name);
    match shape
    case Cylinder => "        " + id + "[(\"" + name + "\")]"
    case Subroutine => "        " + id + "[[\"" + name + "\"]]"
    case Diamond => "        " + id + "{\"" + name + "\"}"
    case Rectangle => "        " + id + "[\"" + name + "\"]"
  }

  function NodeLines(comps: seq<string>, types: map<string, string>): (r: seq<string>)
    ensures |r| == |comps|
  {
    seq(|comps|, i requires 0 <= i < |comps| => NodeLine(comps[i], ShapeOf(TypeOf(types, comps[i]))))
  }

  /** The edge line: labelled `-->|label|` exactly when the label is
      non-empty. */
  function EdgeLine(e: Edge): string {
    var s := SanitizeId(e.source);
    var d := SanitizeId(e.dest);
    if e.caption != "" then "    " + s + " -->|" + e.caption + "| " + d
    else "    " + s + " --> " + d
  }

  function EdgeLines(edges: seq<Edge>): (r: seq<string>)
    ensures |r| == |edges|
  {
    seq(|edges|, i requires 0 <= i < |edges| => EdgeLine(edges[i]))
  }

  /** An edge line carries the label bar `|` exactly when the edge has a
      label: node ids never contain one. */
  lemma EdgeLabelBar(e: Edge)
    ensures '|' in EdgeLine(e) <==> e.caption != ""
  {
    var s := SanitizeId(e.source);
    var d := SanitizeId(e.dest);
    assert '|' !in s && '|' !in d by {
      assert !IdChar('|');
    }
    if e.caption != "" {
      assert EdgeLine(e)[|"    " + s + " -->"|] == '|';
    } else {
      assert EdgeLine(e) == "    " + s + " --> " + d;
    }
  }

  /** The `class` line of a node, present only for the three categories. */
  function ClassLine(name: string, shape: Shape): (r: seq<string>)
    ensures r == [] <==> shape == Rectangle
  {
    var id := SanitizeId(name);
    match shape
    case Cylinder => ["    class " + id + " source"]
    case Subroutine => ["    class " + id + " destination"]
    case Diamond => ["    class " + id + " transform"]
    case Rectangle => []
  }

  function ClassLines(comps: seq<string>, types: map<string, string>): seq<string>
    decreases |comps|
  {
    if comps == [] then []
    else
      var c := comps[|comps| - 1];
      ClassLines(comps[..|comps| - 1], types) + ClassLine(c, ShapeOf(TypeOf(types, c)))
  }

  /** The lines before the nodes: front matter, direction and subgraph. */
  function MermaidHeader(title: string, direction: string): seq<string> {
    ["---", "title: " + title, "---", "flowchart " + direction,
     "    subgraph " + SanitizeId(title) + "[\"" + title + "\"]"]
  }

  const MermaidStyling: seq<string> := [
    "", "    %% Styling",
    "    classDef source fill:#e1f5fe,stroke:#01579b",
    "    classDef destination fill:#e8f5e9,stroke:#1b5e20",
    "    classDef transform fill:#fff3e0,stroke:#e65100"]

  /** The lines of `_generate_mermaid_flowchart`. */
  function MermaidLines(title: string, comps: seq<string>, edges: seq<Edge>, direction: string, types: map<string, string>): seq<string> {
    MermaidHeader(title, direction) + NodeLines(comps, types) + ["    end", ""] +
    EdgeLines(edges) + MermaidStyling + ClassLines(comps, types)
  }

  /** With no type map every node is a rectangle and no `class` line is
      emitted, as in the control-flow diagram. */
  lemma {:induction false} UntypedFlowchart(comps: seq<string>)
    ensures forall i :: 0 <= i < |comps| ==> NodeLines(comps, map[])[i] == NodeLine(comps[i], Rectangle)
    ensures ClassLines(comps, map[]) == []
    decreases |comps|
  {
    UntypedIsRectangle();
    if comps != [] {
      UntypedFlowchart(comps[..|comps| - 1]);
    }
  }

  /** The flowchart holds the node lines right after the five header
      lines, and the edge lines right after the nodes and the `end` of the
      subgraph. */
  lemma FlowchartLayout(title: string, comps: seq<string>, edges: seq<Edge>, direction: string, types: map<string, string>)
    ensures var lines := MermaidLines(title, comps, edges, direction, types);
      var e := 5 + |comps| + 2;
      |lines| >= e + |edges| + 5 &&
      lines[5..5 + |comps|] == NodeLines(comps, types) &&
      lines[e..e + |edges|] == EdgeLines(edges)
  {
    var h := MermaidHeader(title, direction);
    var n := NodeLines(comps, types);
    var m := EdgeLines(edges);
    var tail := MermaidStyling + ClassLines(comps, types);
    var lines := MermaidLines(title, comps, edges, direction, types);
    assert lines == h + n + ["    end", ""] + m + tail;
    assert lines[5..5 + |comps|] == n;
    assert lines[5 + |comps| + 2..5 + |comps| + 2 + |edges|] == m;
  }

  method ShowNodes(comps: seq<string>, types: map<string, string>) returns (ls: seq<string>)
    ensures ls == NodeLines(comps, types)
  {
    ls := [];
    for i := 0 to |comps|
      invariant |ls| == i
      invariant forall k :: 0 <= k < i ==> ls[k] == NodeLine(comps[k], ShapeOf(TypeOf(types, comps[k])))
    {
      var comp := comps[i];
      var compId := SanitizeId(comp);
      var compType := TypeOf(types, comp);
      var line;
      if compType == "Source" {
        line := "        " + compId + "[(\"" + comp + "\")]";
      } else if compType == "Destination" {
        line := "        " + compId + "[[\"" + comp + "\"]]";
      } else if Contains(compType, "Transform") {
        line := "        " + compId + "{\"" + comp + "\"}";
      } else {
        line := "        " + compId + "[\"" + comp + "\"]";
      }
      ls := ls + [line];
    }
  }

  /** One edge line: `-->|label|` for a labelled edge, `-->` otherwise. */
  method ShowEdge(e: Edge) returns (line: string)
    ensures line == EdgeLine(e)
  {
    var sourceId := SanitizeId(e.source);
    var destId := SanitizeId(e.dest);
    var caption := e.caption;
    if caption != "" {
      line := "    " + sourceId + " -->|" + caption + "| " + destId;
    } else {
      line := "    " + sourceId + " --> " + destId;
    }
  }

  method ShowEdges(edges: seq<Edge>) returns (ls: seq<string>)
    ensures ls == EdgeLines(edges)
  {
    ls := [];
    for i := 0 to |edges|
      invariant |ls| == i
      invariant forall k :: 0 <= k < i ==> ls[k] == EdgeLine(edges[k])
    {
      var line := ShowEdge(edges[i]);
      ls := ls + [line];
    }
  }

  /** The `class` line of one component, if its type has a style. */
  method ShowClass(comp: string, types: map<string, string>) returns (line: seq<string>)
    ensures line == ClassLine(comp, ShapeOf(TypeOf(types, comp)))
  {
    var compId := SanitizeId(comp);
    var compType := TypeOf(types, comp);
    line := [];
    if compType == "Source" {
      line := ["    class " + compId + " source"];
    } else if compType == "Destination" {
      line := ["    class " + compId + " destination"];
    } else if Contains(compType, "Transform") {
      line := ["    class " + compId + " transform"];
    }
  }

  method ShowClasses(comps: seq<string>, types: map<string, string>) returns (ls: seq<string>)
    ensures ls == ClassLines(comps, types)
  {
    ls := [];
    for i := 0 to |comps|
      invariant ls == ClassLines(comps[..i], types)
    {
      var line := ShowClass(comps[i], types);
      assert comps[..i + 1][..i] == comps[..i];
      ls := ls + line;
    }
    assert comps[..|comps|] == comps;
  }

  /** `_generate_mermaid_flowchart`: the lines joined by newlines. */
  method MermaidFlowchart(title: string, comps: seq<string>, edges: seq<Edge>, direction: string, types: map<string, string>)
    returns (code: string)
    ensures code == Join(MermaidLines(title, comps, edges, direction, types), "\n")
  {
    var lines := MermaidHeader(title, direction);
    var nodes := ShowNodes(comps, types);
    lines := lines + nodes + ["    end", ""];
    var edgeLines := ShowEdges(edges);
    lines := lines + edgeLines + MermaidStyling;
    var classes := ShowClasses(comps, types);
    lines := lines + classes;
    code := Join(lines, "\n");
  }

  // ---------------------------------------------------------------------
  // Entry points

  function StageNames(stages: seq<ControlFlowStage>): (r: seq<string>)
    ensures |r| == |stages| && forall i :: 0 <= i < |stages| ==> r[i] == stages[i].name
  {
    seq(|stages|, i requires 0 <= i < |stages| => stages[i].name)
  }

  function ComponentNames(cs: seq<DataFlowComponent>): seq<string> {
    seq(|cs|, i requires 0 <= i < |cs| => cs[i].name)
  }

  /** The data-flow graph has one node per component, in order, and every
      node has an entry in the type map that styles the flowchart. */
  lemma ComponentNodesTyped(cs: seq<DataFlowComponent>)
    ensures |ComponentNames(cs)| == |cs|
    ensures forall i :: 0 <= i < |cs| ==> ComponentNames(cs)[i] == cs[i].name && ComponentNames(cs)[i] in ComponentTypes(cs)
  {
    forall i | 0 <= i < |cs|
      ensures cs[i].name in ComponentTypes(cs)
    {
      ComponentTypesLast(cs, cs[i].name);
    }
  }

  /** The diagram of the control flow: every stage is a node, every raw
      constraint an edge, and both renderings describe exactly those. */
  function ControlFlowDiagram(pkg: DtsxPackage): DataFlowDiagram {
    var components := StageNames(pkg.controlFlowStages);
    var paths := ControlFlowEdges(pkg.rawPrecedenceConstraints);
    DataFlowDiagram("Control Flow", components, paths,
      Some(Join(MermaidLines("Control Flow", components, paths, "TB", map[]), "\n")),
      Some(Join(ControlFlowArt(pkg.controlFlowStages), "\n")))
  }

  /** The diagram of a data-flow task: every component is a node, typed for
      its shape; only fully resolved paths become edges. */
  function DataFlowDiagramOf(dft: DataFlowTask): DataFlowDiagram {
    var components := ComponentNames(dft.components);
    var paths := DataFlowEdges(dft.paths, dft.components);
    DataFlowDiagram(dft.name, components, paths,
      Some(Join(MermaidLines(dft.name, components, paths, "TB", ComponentTypes(dft.components)), "\n")),
      Some(Join(DataFlowArt(dft), "\n")))
  }

  /** `generate_control_flow_diagram`. */
  method GenerateControlFlowDiagram(pkg: DtsxPackage) returns (d: DataFlowDiagram)
    ensures d == ControlFlowDiagram(pkg)
  {
    var components := StageNames(pkg.controlFlowStages);
    var paths := ControlFlowPaths(pkg.rawPrecedenceConstraints);
    var mermaid := MermaidFlowchart("Control Flow", components, paths, "TB", map[]);
    var art := AsciiControlFlow(pkg.controlFlowStages);
    d := DataFlowDiagram("Control Flow", components, paths, Some(mermaid), Some(Join(art, "\n")));
  }

  /** `generate_data_flow_diagram`. */
  method GenerateDataFlowDiagram(dft: DataFlowTask) returns (d: DataFlowDiagram)
    ensures d == DataFlowDiagramOf(dft)
  {
    var components := ComponentNames(dft.components);
    var paths := DataFlowPaths(dft.paths, dft.components);
    var mermaid := MermaidFlowchart(dft.name, components, paths, "TB", ComponentTypes(dft.components));
    var art := AsciiDataFlow(dft);
    d := DataFlowDiagram(dft.name, components, paths, Some(mermaid), Some(Join(art, "\n")));
  }

  /** The loop of `generate_all_diagrams`: one diagram per data-flow
      task, in order. */
  method GenerateDataFlowDiagrams(tasks: seq<DataFlowTask>) returns (ds: seq<DataFlowDiagram>)
    ensures |ds| == |tasks|
    ensures forall k :: 0 <= k < |tasks| ==> ds[k] == DataFlowDiagramOf(tasks[k])
  {
    ds := [];
    for i := 0 to |tasks|
      invariant |ds| == i
      invariant forall k :: 0 <= k < i ==> ds[k] == DataFlowDiagramOf(tasks[k])
    {
      var df := GenerateDataFlowDiagram(tasks[i]);
      SnocPointwise(ds, tasks, DataFlowDiagramOf, i, df);
      ds := ds + [df];
    }
  }

  /** `generate_all_diagrams`: the control-flow diagram, then one per
      data-flow task in order. */
  method GenerateAllDiagrams(pkg: DtsxPackage) returns (ds: seq<DataFlowDiagram>)
    ensures |ds| == 1 + |pkg.dataFlowTasks|
    ensures ds[0] == ControlFlowDiagram(pkg)
    ensures ds[1..] == seq(|pkg.dataFlowTasks|, k requires 0 <= k < |pkg.dataFlowTasks| => DataFlowDiagramOf(pkg.dataFlowTasks[k]))
  {
    var cf := GenerateControlFlowDiagram(pkg);
    var rest := GenerateDataFlowDiagrams(pkg.dataFlowTasks);
    ds := [cf] + rest;
    assert ds[1..] == rest;
  }

  /** The control-flow diagram has one edge per raw constraint, in order,
      labelled with the cleaned expression. */
  lemma ControlFlowOneEdgePerConstraint(pkg: DtsxPackage)
    ensures |ControlFlowDiagram(pkg).paths| == |pkg.rawPrecedenceConstraints|
    ensures forall i :: 0 <= i < |pkg.rawPrecedenceConstraints| ==>
      ControlFlowDiagram(pkg).paths[i] == ControlFlowEdge(pkg.rawPrecedenceConstraints[i])
  {
    forall i | 0 <= i < |pkg.rawPrecedenceConstraints| {
      ControlFlowEdgesAt(pkg.rawPrecedenceConstraints, i);
    }
  }
}
