/** The two ASCII renderers of `DiagramGenerator`
    (dtsx_parser/diagram_generator.py): the control-flow boxes and arrows,
    and the data-flow listing by component category with its symbol table
    and path summary. Each renderer is a method that builds its `lines`
    list by appending in loops, proved equal to a function that describes
    the whole listing; the functions carry the properties. */
module AsciiDiagrams {
  import opened Basics
  import opened Text
  import opened Models
  import opened DiagramNames

  /** A rule of `=`, a title line, the rule again and a blank line. */
  function Banner(width: nat, title: string): seq<string> {
    [Repeat('=', width), title, Repeat('=', width), ""]
  }

  // ---------------------------------------------------------------------
  // Control flow

  /** The longest stage name, 0 for no stages. */
  function MaxNameLength(stages: seq<ControlFlowStage>): (m: nat)
    ensures forall i :: 0 <= i < |stages| ==> |stages[i].name| <= m
    ensures stages != [] ==> exists i :: 0 <= i < |stages| && |stages[i].name| == m
    ensures stages == [] ==> m == 0
    decreases |stages|
  {
    if stages == [] then 0
    else
      var init := stages[..|stages| - 1];
      var m := MaxNameLength(init);
      var l := |stages[|stages| - 1].name|;
      assert forall i :: 0 <= i < |init| ==> init[i] == stages[i];
      if l >= m then l else m
  }

  /** The inner width of every box: 4 more than the longest name, and 24
      when there are no stages. */
  function BoxWidth(stages: seq<ControlFlowStage>): (w: nat)
    ensures stages == [] ==> w == 24
    ensures forall i :: 0 <= i < |stages| ==> |stages[i].name| + 4 <= w
    ensures stages != [] ==> exists i :: 0 <= i < |stages| && |stages[i].name| + 4 == w
  {
    (if stages == [] then 20 else MaxNameLength(stages)) + 4
  }

  /** The kinds of row a control-flow drawing is made of. */
  datatype Row = Border | Label(text: string) | Stem | Guard(text: string) | Head | Blank

  /** The text of a row inside boxes of inner width `w`: the stem and the
      arrow head sit under the middle of the box. */
  function RenderRow(r: Row, w: nat): string {
    match r
    case Border => "    +" + Repeat('-', w) + "+"
    case Label(t) => "    |" + Center(t, w) + "|"
    case Stem => "    " + Repeat(' ', w / 2 + 1) + "|"
    case Guard(t) => "        [" + t + "]"
    case Head => "    " + Repeat(' ', w / 2 + 1) + "V"
    case Blank => ""
  }

  function Render(rows: seq<Row>, w: nat): (r: seq<string>)
    ensures |r| == |rows|
  {
    seq(|rows|, i requires 0 <= i < |rows| => RenderRow(rows[i], w))
  }

  /** Stage `i`'s box, followed, unless it is the last stage, by an arrow
      labelled with the next stage's guard when it has one. */
  function StageRows(stages: seq<ControlFlowStage>, i: nat): seq<Row>
    requires i < |stages|
  {
    [Border, Label(stages[i].name), Label("(" + stages[i].stageType + ")"), Border]
    + if i < |stages| - 1 then
        var next := stages[i + 1];
        [Stem] + (if Truthy(next.condition) then [Guard(CleanLabel(next.condition.value))] else []) + [Head, Blank]
      else []
  }

  /** The rendered blocks of the first `k` stages, one after the other. */
  function StageLines(stages: seq<ControlFlowStage>, w: nat, k: nat): seq<string>
    requires k <= |stages|
  {
    if k == 0 then [] else StageLines(stages, w, k - 1) + Render(StageRows(stages, k - 1), w)
  }

  /** The whole control-flow drawing. */
  function ControlFlowArt(stages: seq<ControlFlowStage>): seq<string> {
    Banner(60, " CONTROL FLOW DIAGRAM") + StageLines(stages, BoxWidth(stages), |stages|)
  }

  /** `max(len(stage.name) for stage in stages)`, 0 for no stages. */
  method LongestName(stages: seq<ControlFlowStage>) returns (m: nat)
    ensures m == MaxNameLength(stages)
  {
    m := 0;
    for k := 0 to |stages|
      invariant m == MaxNameLength(stages[..k])
    {
      assert stages[..k + 1][..k] == stages[..k];
      if |stages[k].name| >= m {
        m := |stages[k].name|;
      }
    }
    assert stages[..|stages|] == stages;
  }

  /** One stage's block: its box and, unless it is the last stage, the
      arrow to the next one. */
  method DrawStage(stages: seq<ControlFlowStage>, i: nat, w: nat) returns (block: seq<string>)
    requires i < |stages|
    ensures block == Render(StageRows(stages, i), w)
  {
    var stage := stages[i];
    block := [RenderRow(Border, w), RenderRow(Label(stage.name), w),
              RenderRow(Label("(" + stage.stageType + ")"), w), RenderRow(Border, w)];
    if i < |stages| - 1 {
      var next := stages[i + 1];
      block := block + [RenderRow(Stem, w)];
      if Truthy(next.condition) {
        block := block + [RenderRow(Guard(CleanLabel(next.condition.value)), w)];
      }
      block := block + [RenderRow(Head, w), RenderRow(Blank, w)];
    }
  }

  /** `_generate_ascii_control_flow`, returned as its list of lines. */
  method AsciiControlFlow(stages: seq<ControlFlowStage>) returns (lines: seq<string>)
    ensures lines == ControlFlowArt(stages)
  {
    lines := Banner(60, " CONTROL FLOW DIAGRAM");
    var maxWidth := 20;
    if |stages| > 0 {
      maxWidth := LongestName(stages);
    }
    var w := maxWidth + 4;
    var body := [];
    for i := 0 to |stages|
      invariant body == StageLines(stages, w, i)
    {
      var block := DrawStage(stages, i, w);
      body := body + block;
    }
    lines := lines + body;
  }

  /** The rows of one block: four for the box, then three more for the
      arrow and a fourth, the `[cond]` row, exactly when the next stage has
      a non-empty guard. */
  lemma StageRowsShape(stages: seq<ControlFlowStage>, i: nat)
    requires i < |stages|
    ensures |StageRows(stages, i)| ==
      4 + (if i < |stages| - 1 then (if Truthy(stages[i + 1].condition) then 4 else 3) else 0)
    ensures (exists t :: Guard(t) in StageRows(stages, i)) <==> i < |stages| - 1 && Truthy(stages[i + 1].condition)
    ensures i < |stages| - 1 && Truthy(stages[i + 1].condition) ==>
      StageRows(stages, i)[5] == Guard(CleanLabel(stages[i + 1].condition.value))
  {
    if i < |stages| - 1 && Truthy(stages[i + 1].condition) {
      assert Guard(CleanLabel(stages[i + 1].condition.value)) == StageRows(stages, i)[5];
    }
  }

  /** Every box row is as wide as the border above it: the widest name
      still leaves two spaces on each side. */
  lemma BoxRowsAligned(stages: seq<ControlFlowStage>, i: nat)
    requires i < |stages|
    ensures |RenderRow(Label(stages[i].name), BoxWidth(stages))| == |RenderRow(Border, BoxWidth(stages))| == BoxWidth(stages) + 6
  {
  }

  /** A border or an arrow head renders differently from every other row. */
  lemma RenderRowDistinct(a: Row, b: Row, w: nat)
    requires b == Border || b == Head
    requires a != b
    ensures RenderRow(a, w) != RenderRow(b, w)
  {
    var x, y := RenderRow(a, w), RenderRow(b, w);
    assert |y| >= 6 && y[4] == (if b == Border then '+' else ' ');
    match a
    case Border => assert x[4] != y[4];
    case Label(t) => assert x[4] != y[4];
    case Stem =>
      if b == Head {
        assert x[|x| - 1] != y[|y| - 1];
      } else {
        assert x[4] != y[4];
      }
    case Guard(t) =>
      if b == Head {
        assert x[|x| - 1] != y[|y| - 1];
      } else {
        assert x[4] != y[4];
      }
    case Head => assert x[4] != y[4];
    case Blank =>
  }

  /** Counting a border or an arrow head in the text is counting it in the rows. */
  lemma {:induction false} RenderCount(rows: seq<Row>, w: nat, b: Row)
    requires b == Border || b == Head
    ensures Count(Render(rows, w), RenderRow(b, w)) == Count(rows, b)
    decreases |rows|
  {
    if rows != [] {
      var init, last := rows[..|rows| - 1], rows[|rows| - 1];
      RenderCount(init, w, b);
      assert Render(rows, w) == Render(init, w) + [RenderRow(last, w)];
      CountAppend(Render(init, w), [RenderRow(last, w)], RenderRow(b, w));
      if last != b {
        RenderRowDistinct(last, b, w);
      }
    }
  }

  /** Two borders per block, and an arrow head in every block but the last. */
  lemma StageRowsCounts(stages: seq<ControlFlowStage>, i: nat)
    requires i < |stages|
    ensures Count(StageRows(stages, i), Border) == 2
    ensures Count(StageRows(stages, i), Head) == if i < |stages| - 1 then 1 else 0
  {
    var labels := [Label(stages[i].name), Label("(" + stages[i].stageType + ")")];
    var box := [Border] + labels + [Border];
    CountAppend([Border] + labels, [Border], Border);
    CountAppend([Border], labels, Border);
    CountAbsent(labels, Border);
    CountAbsent(box, Head);
    if i < |stages| - 1 {
      var next := stages[i + 1];
      var guard := if Truthy(next.condition) then [Guard(CleanLabel(next.condition.value))] else [];
      var arrow := [Stem] + guard + [Head, Blank];
      assert StageRows(stages, i) == box + arrow;
      CountAppend(box, arrow, Border);
      CountAppend(box, arrow, Head);
      CountAppend([Stem] + guard, [Head, Blank], Border);
      CountAppend([Stem] + guard, [Head, Blank], Head);
      CountAbsent([Stem] + guard, Border);
      CountAbsent([Stem] + guard, Head);
      assert [Head, Blank][..1] == [Head];
    } else {
      assert StageRows(stages, i) == box;
    }
  }

  lemma {:induction false} StageLinesBorders(stages: seq<ControlFlowStage>, w: nat, k: nat)
    requires k <= |stages|
    ensures Count(StageLines(stages, w, k), RenderRow(Border, w)) == 2 * k
  {
    if k > 0 {
      var prev, block := StageLines(stages, w, k - 1), Render(StageRows(stages, k - 1), w);
      StageLinesBorders(stages, w, k - 1);
      CountAppend(prev, block, RenderRow(Border, w));
      RenderCount(StageRows(stages, k - 1), w, Border);
      StageRowsCounts(stages, k - 1);
    }
  }

  /** Before the last stage, every block ends in an arrow. */
  lemma {:induction false} StageLinesArrows(stages: seq<ControlFlowStage>, w: nat, k: nat)
    requires k < |stages|
    ensures Count(StageLines(stages, w, k), RenderRow(Head, w)) == k
  {
    if k > 0 {
      var prev, block := StageLines(stages, w, k - 1), Render(StageRows(stages, k - 1), w);
      StageLinesArrows(stages, w, k - 1);
      CountAppend(prev, block, RenderRow(Head, w));
      RenderCount(StageRows(stages, k - 1), w, Head);
      StageRowsCounts(stages, k - 1);
    }
  }

  /** The last block has no arrow. */
  lemma LastBlockHasNoArrow(stages: seq<ControlFlowStage>, w: nat)
    requires stages != []
    ensures Count(Render(StageRows(stages, |stages| - 1), w), RenderRow(Head, w)) == 0
  {
    RenderCount(StageRows(stages, |stages| - 1), w, Head);
    StageRowsCounts(stages, |stages| - 1);
  }

  lemma AllStageLinesArrows(stages: seq<ControlFlowStage>, w: nat)
    requires stages != []
    ensures Count(StageLines(stages, w, |stages|), RenderRow(Head, w)) == |stages| - 1
  {
    var k := |stages|;
    RenderRowDistinct(Border, Head, w);
    StageLinesArrows(stages, w, k - 1);
    LastBlockHasNoArrow(stages, w);
    CountAppend(StageLines(stages, w, k - 1), Render(StageRows(stages, k - 1), w), RenderRow(Head, w));
  }

  /** No line that starts with two spaces occurs in a banner whose title
      does not. */
  lemma BannerCount(width: nat, title: string, x: string)
    requires width >= 1 && |title| >= 2 && title[1] != ' '
    requires |x| >= 2 && x[0] == ' ' && x[1] == ' '
    ensures Count(Banner(width, title), x) == 0
  {
    var banner := Banner(width, title);
    assert banner[0][0] == '=' && banner[2][0] == '=';
    CountAbsent(banner, x);
  }

  lemma ArtBorders(stages: seq<ControlFlowStage>, w: nat, banner: seq<string>)
    requires Count(banner, RenderRow(Border, w)) == 0
    ensures Count(banner + StageLines(stages, w, |stages|), RenderRow(Border, w)) == 2 * |stages|
  {
    StageLinesBorders(stages, w, |stages|);
    CountAppend(banner, StageLines(stages, w, |stages|), RenderRow(Border, w));
  }

  lemma ArtArrows(stages: seq<ControlFlowStage>, w: nat, banner: seq<string>)
    requires Count(banner, RenderRow(Head, w)) == 0
    ensures Count(banner + StageLines(stages, w, |stages|), RenderRow(Head, w)) ==
      if stages == [] then 0 else |stages| - 1
  {
    if stages != [] {
      AllStageLinesArrows(stages, w);
    }
    CountAppend(banner, StageLines(stages, w, |stages|), RenderRow(Head, w));
  }

  /** `n` stages are drawn as `n` boxes (two borders each) joined by
      `n - 1` arrows. */
  lemma ControlFlowArtCounts(stages: seq<ControlFlowStage>)
    ensures Count(ControlFlowArt(stages), RenderRow(Border, BoxWidth(stages))) == 2 * |stages|
    ensures Count(ControlFlowArt(stages), RenderRow(Head, BoxWidth(stages))) == if stages == [] then 0 else |stages| - 1
  {
    var w := BoxWidth(stages);
    var banner := Banner(60, " CONTROL FLOW DIAGRAM");
    BannerCount(60, " CONTROL FLOW DIAGRAM", RenderRow(Border, w));
    BannerCount(60, " CONTROL FLOW DIAGRAM", RenderRow(Head, w));
    ArtBorders(stages, w, banner);
    ArtArrows(stages, w, banner);
  }

  // ---------------------------------------------------------------------
  // Data flow

  /** The abbreviated SQL of a source: stripped, cut to 50 characters, and
      newlines shown as spaces. */
  function SqlPreview(sql: string): (r: string)
    ensures |r| <= 50
    ensures '\n' !in r
  {
    var cut := Take(Strip(sql), 50);
    ReplaceCharPointwise(cut, '\n', ' ');
    ReplaceRemovesChar(cut, '\n', " ");
    Replace(cut, "\n", " ")
  }

  /** The lines of one source: its name, then its SQL when it has any. */
  function SourceLines(c: DataFlowComponent): seq<string> {
    ["    [(" + c.name + ")]"] +
    if Truthy(c.sqlCommand) then ["        SQL: " + SqlPreview(c.sqlCommand.value) + "..."] else []
  }

  function SourceListing(sources: seq<DataFlowComponent>): seq<string>
    decreases |sources|
  {
    if sources == [] then []
    else SourceListing(sources[..|sources| - 1]) + SourceLines(sources[|sources| - 1])
  }

  /** The `SOURCES:` section, absent when there are no sources. */
  function SourcesSection(sources: seq<DataFlowComponent>): seq<string> {
    if sources == [] then []
    else ["SOURCES:"] + SourceListing(sources) + ["        |", "        V", ""]
  }

  /** The symbol table of the transformations, in the order the class
      names are tested. */
  const Symbols: seq<(string, string)> := [
    ("DerivedColumn", "{DER}"), ("ConditionalSplit", "{SPLIT}"), ("Lookup", "{LKP}"),
    ("Multicast", "{MCT}"), ("RowCount", "{RC}"), ("DataConvert", "{DCV}")]

  /** The symbol of a transformation: the first class-name test that
      passes, and `{TRF}` when none does. */
  function Symbol(componentClass: string): string {
    if Contains(componentClass, "DerivedColumn") then "{DER}"
    else if Contains(componentClass, "ConditionalSplit") then "{SPLIT}"
    else if Contains(componentClass, "Lookup") then "{LKP}"
    else if Contains(componentClass, "Multicast") then "{MCT}"
    else if Contains(componentClass, "RowCount") then "{RC}"
    else if Contains(componentClass, "DataConvert") then "{DCV}"
    else "{TRF}"
  }

  /** The symbol is that of the first table entry whose class name occurs
      in the component class. */
  lemma SymbolFirstMatch(componentClass: string, k: nat)
    requires k < |Symbols| && Contains(componentClass, Symbols[k].0)
    requires forall j :: 0 <= j < k ==> !Contains(componentClass, Symbols[j].0)
    ensures Symbol(componentClass) == Symbols[k].1
  {
    if k > 0 { assert !Contains(componentClass, Symbols[0].0); }
    if k > 1 { assert !Contains(componentClass, Symbols[1].0); }
    if k > 2 { assert !Contains(componentClass, Symbols[2].0); }
    if k > 3 { assert !Contains(componentClass, Symbols[3].0); }
    if k > 4 { assert !Contains(componentClass, Symbols[4].0); }
  }

  /** `{TRF}` is drawn exactly when no table entry matches. */
  lemma SymbolFallback(componentClass: string)
    ensures Symbol(componentClass) == "{TRF}" <==>
      forall j :: 0 <= j < |Symbols| ==> !Contains(componentClass, Symbols[j].0)
  {
    var c := componentClass;
    if Symbol(c) == "{TRF}" {
      forall j | 0 <= j < |Symbols| ensures !Contains(c, Symbols[j].0) {
        if Contains(c, Symbols[j].0) {
          assert false;
        }
      }
    } else {
      assert Contains(c, Symbols[0].0) || Contains(c, Symbols[1].0) || Contains(c, Symbols[2].0) ||
        Contains(c, Symbols[3].0) || Contains(c, Symbols[4].0) || Contains(c, Symbols[5].0);
    }
  }

  /** A preview line for each of the columns with an expression. */
  function ColumnPreview(cols: seq<OutputColumn>): seq<string>
    decreases |cols|
  {
    if cols == [] then []
    else
      var col := cols[|cols| - 1];
      ColumnPreview(cols[..|cols| - 1]) +
      if Truthy(col.expression) then ["          -> " + col.name + ": " + Take(col.expression.value, 40) + "..."] else []
  }

  /** The line of one conditional output: its expression, `(Default)` for
      the default output, and nothing for any other. */
  function ConditionLines(outs: seq<ConditionalOutput>): seq<string>
    decreases |outs|
  {
    if outs == [] then []
    else
      var o := outs[|outs| - 1];
      ConditionLines(outs[..|outs| - 1]) +
      if Truthy(o.expression) then ["          |-> [" + o.name + "]: " + o.expression.value]
      else if o.isDefault then ["          |-> [" + o.name + "]: (Default)"]
      else []
  }

  /** Python's `output_columns[:3]`. */
  function FirstThree<T>(xs: seq<T>): (r: seq<T>)
    ensures |r| <= 3 && r <= xs
  {
    if |xs| <= 3 then xs else xs[..3]
  }

  /** The lines of one transformation; all but the last are followed by an
      arrow to the next. */
  function TransformLines(t: DataFlowComponent, last: bool): seq<string> {
    ["    " + Symbol(t.componentClass) + " " + t.name] +
    ColumnPreview(FirstThree(t.outputColumns)) +
    ConditionLines(t.conditionalOutputs) +
    if last then [] else ["        |", "        V"]
  }

  /** The lines of the first `k` transformations. */
  function TransformListing(ts: seq<DataFlowComponent>, k: nat): seq<string>
    requires k <= |ts|
  {
    if k == 0 then [] else TransformListing(ts, k - 1) + TransformLines(ts[k - 1], k == |ts|)
  }

  /** The `TRANSFORMATIONS:` section, absent when there are none. */
  function TransformsSection(ts: seq<DataFlowComponent>): seq<string> {
    if ts == [] then []
    else ["TRANSFORMATIONS:"] + TransformListing(ts, |ts|) + ["        |", "        V", ""]
  }

  /** `dest.table_name or "Unknown Table"`. */
  function TableOf(d: DataFlowComponent): (r: string)
    ensures Truthy(d.tableName) ==> r == d.tableName.value
    ensures !Truthy(d.tableName) ==> r == "Unknown Table"
  {
    if Truthy(d.tableName) then d.tableName.value else "Unknown Table"
  }

  function DestinationListing(ds: seq<DataFlowComponent>): seq<string>
    decreases |ds|
  {
    if ds == [] then []
    else
      var d := ds[|ds| - 1];
      DestinationListing(ds[..|ds| - 1]) + ["    [[" + d.name + "]]", "        -> " + TableOf(d)]
  }

  /** The `DESTINATIONS:` section, absent when there are none. */
  function DestinationsSection(ds: seq<DataFlowComponent>): seq<string> {
    if ds == [] then [] else ["DESTINATIONS:"] + DestinationListing(ds) + [""]
  }

  /** `name or "?"` for a resolved endpoint. */
  function Endpoint(ref: string, cs: seq<DataFlowComponent>): string {
    var n := ExtractComponentName(ref, cs);
    if Truthy(n) then n.value else "?"
  }

  /** An endpoint is printed as a component's name or as `?`, and as `?`
      whenever it resolves to no component. */
  lemma EndpointName(ref: string, cs: seq<DataFlowComponent>)
    ensures Endpoint(ref, cs) == "?" || exists i :: 0 <= i < |cs| && Endpoint(ref, cs) == cs[i].name
    ensures ExtractComponentName(ref, cs).None? ==> Endpoint(ref, cs) == "?"
  {
  }

  function PathLine(p: DataFlowPath, cs: seq<DataFlowComponent>): string {
    "    " + Endpoint(p.sourceRefId, cs) + " --> " + Endpoint(p.destinationRefId, cs)
  }

  function PathListing(paths: seq<DataFlowPath>, cs: seq<DataFlowComponent>): (r: seq<string>)
    decreases |paths|
  {
    if paths == [] then []
    else PathListing(paths[..|paths| - 1], cs) + [PathLine(paths[|paths| - 1], cs)]
  }

  /** The whole data-flow drawing of a task. */
  function DataFlowArt(dft: DataFlowTask): seq<string> {
    var cs := dft.components;
    Banner(70, " DATA FLOW: " + dft.name) +
    SourcesSection(OfType(cs, "Source")) +
    TransformsSection(OfType(cs, "Transform")) +
    DestinationsSection(OfType(cs, "Destination")) +
    [Repeat('-', 70), "DATA PATHS:"] +
    PathListing(dft.paths, cs)
  }

  /** One path line per path, in order, whether or not its endpoints
      resolve. */
  lemma {:induction false} PathListingLines(paths: seq<DataFlowPath>, cs: seq<DataFlowComponent>)
    ensures |PathListing(paths, cs)| == |paths|
    ensures forall i :: 0 <= i < |paths| ==> PathListing(paths, cs)[i] == PathLine(paths[i], cs)
    decreases |paths|
  {
    if paths != [] {
      var init := paths[..|paths| - 1];
      PathListingLines(init, cs);
      assert forall i :: 0 <= i < |init| ==> paths[i] == init[i];
    }
  }

  /** An endpoint that resolves to no component is printed as `?`. */
  lemma UnresolvedEndpoint(p: DataFlowPath, cs: seq<DataFlowComponent>)
    requires ExtractComponentName(p.sourceRefId, cs).None?
    ensures PathLine(p, cs) == "    ? --> " + Endpoint(p.destinationRefId, cs)
  {
  }

  /** The parser only keeps conditional outputs with an expression or the
      default flag, so each of them gets a line. */
  lemma {:induction false} ConditionLinesAll(outs: seq<ConditionalOutput>)
    requires forall i :: 0 <= i < |outs| ==> Truthy(outs[i].expression) || outs[i].isDefault
    ensures |ConditionLines(outs)| == |outs|
    decreases |outs|
  {
    if outs != [] {
      ConditionLinesAll(outs[..|outs| - 1]);
    }
  }

  lemma {:induction false} ColumnPreviewShorter(cols: seq<OutputColumn>)
    ensures |ColumnPreview(cols)| <= |cols|
    decreases |cols|
  {
    if cols != [] {
      ColumnPreviewShorter(cols[..|cols| - 1]);
    }
  }

  /** A transformation shows at most three column previews. */
  lemma AtMostThreePreviews(t: DataFlowComponent)
    ensures |ColumnPreview(FirstThree(t.outputColumns))| <= 3
  {
    ColumnPreviewShorter(FirstThree(t.outputColumns));
  }

  method PreviewColumns(columns: seq<OutputColumn>) returns (ls: seq<string>)
    ensures ls == ColumnPreview(FirstThree(columns))
  {
    var cols := FirstThree(columns);
    ls := [];
    for j := 0 to |cols|
      invariant ls == ColumnPreview(cols[..j])
    {
      var col := cols[j];
      assert cols[..j + 1][..j] == cols[..j];
      if Truthy(col.expression) {
        ls := ls + ["          -> " + col.name + ": " + Take(col.expression.value, 40) + "..."];
      }
    }
    assert cols[..|cols|] == cols;
  }

  method ShowConditions(outs: seq<ConditionalOutput>) returns (ls: seq<string>)
    ensures ls == ConditionLines(outs)
  {
    ls := [];
    for j := 0 to |outs|
      invariant ls == ConditionLines(outs[..j])
    {
      var o := outs[j];
      assert outs[..j + 1][..j] == outs[..j];
      if Truthy(o.expression) {
        ls := ls + ["          |-> [" + o.name + "]: " + o.expression.value];
      } else if o.isDefault {
        ls := ls + ["          |-> [" + o.name + "]: (Default)"];
      }
    }
    assert outs[..|outs|] == outs;
  }

  method DrawSource(source: DataFlowComponent) returns (block: seq<string>)
    ensures block == SourceLines(source)
  {
    block := ["    [(" + source.name + ")]"];
    if Truthy(source.sqlCommand) {
      block := block + ["        SQL: " + SqlPreview(source.sqlCommand.value) + "..."];
    }
  }

  method DrawSources(sources: seq<DataFlowComponent>) returns (ls: seq<string>)
    ensures ls == SourcesSection(sources)
  {
    ls := [];
    if sources != [] {
      var body := [];
      for j := 0 to |sources|
        invariant body == SourceListing(sources[..j])
      {
        var block := DrawSource(sources[j]);
        assert sources[..j + 1][..j] == sources[..j];
        body := body + block;
      }
      assert sources[..|sources|] == sources;
      ls := ["SOURCES:"] + body + ["        |", "        V", ""];
    }
  }

  /** One transformation: its symbol line, column previews and condition
      lines, then the arrow unless it is the last. */
  method DrawTransform(t: DataFlowComponent, last: bool) returns (block: seq<string>)
    ensures block == TransformLines(t, last)
  {
    var previews := PreviewColumns(t.outputColumns);
    var conditions := ShowConditions(t.conditionalOutputs);
    block := ["    " + Symbol(t.componentClass) + " " + t.name] + previews + conditions;
    if !last {
      block := block + ["        |", "        V"];
    }
  }

  method DrawTransforms(ts: seq<DataFlowComponent>) returns (ls: seq<string>)
    ensures ls == TransformsSection(ts)
  {
    ls := [];
    if ts != [] {
      var body := [];
      for i := 0 to |ts|
        invariant body == TransformListing(ts, i)
      {
        var block := DrawTransform(ts[i], i + 1 == |ts|);
        body := body + block;
      }
      ls := ["TRANSFORMATIONS:"] + body + ["        |", "        V", ""];
    }
  }

  method DrawDestinations(ds: seq<DataFlowComponent>) returns (ls: seq<string>)
    ensures ls == DestinationsSection(ds)
  {
    ls := [];
    if ds != [] {
      var body := [];
      for j := 0 to |ds|
        invariant body == DestinationListing(ds[..j])
      {
        var dest := ds[j];
        var table := TableOf(dest);
        assert ds[..j + 1][..j] == ds[..j];
        body := body + ["    [[" + dest.name + "]]", "        -> " + table];
      }
      assert ds[..|ds|] == ds;
      ls := ["DESTINATIONS:"] + body + [""];
    }
  }

  method DrawPaths(paths: seq<DataFlowPath>, cs: seq<DataFlowComponent>) returns (ls: seq<string>)
    ensures ls == PathListing(paths, cs)
  {
    ls := [];
    for j := 0 to |paths|
      invariant ls == PathListing(paths[..j], cs)
    {
      var path := paths[j];
      var source := Endpoint(path.sourceRefId, cs);
      var dest := Endpoint(path.destinationRefId, cs);
      assert paths[..j + 1][..j] == paths[..j];
      ls := ls + ["    " + source + " --> " + dest];
    }
    assert paths[..|paths|] == paths;
  }

  /** `_generate_ascii_data_flow`, as the list of lines it joins. */
  method AsciiDataFlow(dft: DataFlowTask) returns (lines: seq<string>)
    ensures lines == DataFlowArt(dft)
  {
    lines := Banner(70, " DATA FLOW: " + dft.name);
    var sources := OfType(dft.components, "Source");
    var transforms := OfType(dft.components, "Transform");
    var destinations := OfType(dft.components, "Destination");
    var part := DrawSources(sources);
    lines := lines + part;
    part := DrawTransforms(transforms);
    lines := lines + part;
    part := DrawDestinations(destinations);
    lines := lines + part;
    lines := lines + [Repeat('-', 70), "DATA PATHS:"];
    part := DrawPaths(dft.paths, dft.components);
    lines := lines + part;
  }
}
