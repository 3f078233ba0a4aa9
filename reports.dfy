/** The decisions of `ReportGenerator` (dtsx_parser/report_generator.py)
    that do not depend on the report bodies: which report a format name
    selects, the short names drawn from reference strings, how components
    are grouped into sources, transforms and destinations, how a routing
    condition is shown in the text and Markdown reports, and which file
    name `save_report` writes to. */
module Reports {
  import opened Basics
  import opened Text
  import opened Models
  import opened Components
  import opened DiagramNames

  // ---------------------------------------------------------------------
  // `generate_full_report`

  /** The three report bodies. */
  datatype ReportKind = JsonReport | MarkdownReport | TextReport

  /** `json` and `markdown` select their reports; every other name,
      including an unknown one, selects the text report. */
  function ReportFor(format: string): (k: ReportKind)
    ensures k == JsonReport <==> format == "json"
    ensures k == MarkdownReport <==> format == "markdown"
    ensures k == TextReport <==> format != "json" && format != "markdown"
  {
    if format == "json" then JsonReport
    else if format == "markdown" then MarkdownReport
    else TextReport
  }

  // ---------------------------------------------------------------------
  // `_extract_names` and `_extract_component_short`

  /** `_extract_names`: the last backslash segment of each reference, in
      order. `str.split` never returns an empty list, so the whole
      reference is never the fallback. */
  method ExtractNames(refs: seq<string>) returns (names: seq<string>)
    ensures |names| == |refs|
    ensures forall i :: 0 <= i < |refs| ==> names[i] == ExtractStageName(refs[i])
  {
    names := [];
    var i := 0;
    while i < |refs|
      invariant 0 <= i <= |refs|
      invariant |names| == i
      invariant forall k :: 0 <= k < i ==> names[k] == ExtractStageName(refs[k])
    {
      names := names + [ExtractStageName(refs[i])];
      i := i + 1;
    }
  }

  /** `_extract_component_short`: a single-segment reference is returned
      whole; otherwise the last segment, cut before its first `.`. */
  function ExtractComponentShort(ref: string): (r: string)
    ensures '\\' !in ref ==> r == ref
    ensures '\\' in ref ==> '\\' !in r && '.' !in r
    ensures '\\' in ref ==> r <= ExtractStageName(ref)
    ensures '\\' in ref && |r| < |ExtractStageName(ref)| ==> ExtractStageName(ref)[|r|] == '.'
  {
    if '\\' in ref then BeforeFirst(LastSegment(ref, '\\'), '.') else ref
  }

  /** The short name is the part the component resolver matches in its
      second pass, for every reference that has that pass. */
  lemma ShortIsResolverPart(ref: string)
    requires '\\' in ref
    ensures ExtractComponentShort(ref) == ComponentPart(ref)
  {
  }

  /** Shortening a short name changes nothing. */
  lemma ExtractComponentShortIdempotent(ref: string)
    ensures ExtractComponentShort(ExtractComponentShort(ref)) == ExtractComponentShort(ref)
  {
  }

  /** A single-segment reference with a dot keeps its dot, while the same
      text behind a backslash loses everything from the dot on. */
  lemma ShortDependsOnSegments()
    ensures ExtractComponentShort("Sort.Out") == "Sort.Out"
    ensures ExtractComponentShort("Flow\\Sort.Out") == "Sort"
  {
    var s := "Sort.Out";
    assert '\\' !in s by {
      forall i | 0 <= i < |s| ensures s[i] != '\\' { }
    }
    var t := "Flow\\Sort.Out";
    assert t[4] == '\\';
    assert t == "Flow\\" + s;
    LastSegmentAfter("Flow", s, '\\');
    BeforeFirstUpTo("Sort", ".Out", '.');
    assert s == "Sort" + ".Out";
  }

  /** The last segment of `a`, separator, `b` is `b` when `b` has no separator. */
  lemma {:induction false} LastSegmentAfter(a: string, b: string, sep: char)
    requires sep !in b
    ensures LastSegment(a + [sep] + b, sep) == b
    decreases |b|
  {
    var s := a + [sep] + b;
    if b == [] {
      assert s[|s| - 1] == sep;
    } else {
      var b' := b[..|b| - 1];
      assert s[..|s| - 1] == a + [sep] + b';
      LastSegmentAfter(a, b', sep);
      assert b == b' + [b[|b| - 1]];
    }
  }

  // ---------------------------------------------------------------------
  // Component summary of `_generate_data_flow_section`

  /** The three kinds the report groups components by. */
  predicate Kinded(c: DataFlowComponent) {
    c.componentType in ["Source", "Transform", "Destination"]
  }

  /** When every component has one of the three kinds, the three groups
      split the component list: together they hold each component exactly
      as often as the list does, so the summary counts add up to the
      number of components. The parser sets every kind through
      `ClassifyComponent`, which always yields one of the three. */
  lemma ComponentPartition(cs: seq<DataFlowComponent>)
    requires forall i :: 0 <= i < |cs| ==> Kinded(cs[i])
    ensures multiset(OfType(cs, "Source")) + multiset(OfType(cs, "Transform")) + multiset(OfType(cs, "Destination")) == multiset(cs)
    ensures |OfType(cs, "Source")| + |OfType(cs, "Transform")| + |OfType(cs, "Destination")| == |cs|
  {
    var src, trf, dst := OfType(cs, "Source"), OfType(cs, "Transform"), OfType(cs, "Destination");
    PartitionBy(cs, "Source", "Transform", "Destination");
    assert |multiset(src) + multiset(trf) + multiset(dst)| == |src| + |trf| + |dst|;
  }

  /** Filtering by three distinct types that cover every component splits
      the list into three parts. */
  lemma PartitionBy(cs: seq<DataFlowComponent>, t1: string, t2: string, t3: string)
    requires t1 != t2 && t1 != t3 && t2 != t3
    requires forall i :: 0 <= i < |cs| ==> cs[i].componentType == t1 || cs[i].componentType == t2 || cs[i].componentType == t3
    ensures multiset(OfType(cs, t1)) + multiset(OfType(cs, t2)) + multiset(OfType(cs, t3)) == multiset(cs)
  {
    forall x
      ensures (multiset(OfType(cs, t1)) + multiset(OfType(cs, t2)) + multiset(OfType(cs, t3)))[x] == multiset(cs)[x]
    {
      OfTypeCount(cs, t1, x);
      OfTypeCount(cs, t2, x);
      OfTypeCount(cs, t3, x);
      if x in cs {
        var i :| 0 <= i < |cs| && cs[i] == x;
      }
    }
  }

  /** The filter keeps every copy of a component of its type and none of
      any other. */
  lemma {:induction false} OfTypeCount(cs: seq<DataFlowComponent>, t: string, x: DataFlowComponent)
    ensures multiset(OfType(cs, t))[x] == if x.componentType == t then multiset(cs)[x] else 0
    decreases |cs|
  {
    if cs != [] {
      var init, c := cs[..|cs| - 1], cs[|cs| - 1];
      OfTypeCount(init, t, x);
      assert cs == init + [c];
    }
  }

  /** Components classified by `ClassifyComponent` form a partition. */
  lemma ClassifiedPartition(cs: seq<DataFlowComponent>)
    requires forall i :: 0 <= i < |cs| ==> cs[i].componentType == ClassifyComponent(cs[i].componentClass)
    ensures |OfType(cs, "Source")| + |OfType(cs, "Transform")| + |OfType(cs, "Destination")| == |cs|
  {
    forall i | 0 <= i < |cs| ensures Kinded(cs[i]) {
      ComponentKinds(cs[i].componentClass);
    }
    ComponentPartition(cs);
  }

  // ---------------------------------------------------------------------
  // Routing conditions in the two human-readable reports

  /** The text report's routing line: the default marker, else the
      friendly expression when it is non-empty, else the raw one. */
  function TextRouteLine(o: ConditionalOutput): (r: string)
    ensures o.isDefault ==> r == "      - " + o.name + ": DEFAULT (unmatched rows)"
    ensures !o.isDefault && Truthy(o.friendlyExpression) ==> r == "      - " + o.name + ": " + o.friendlyExpression.value
  {
    if o.isDefault then "      - " + o.name + ": DEFAULT (unmatched rows)"
    else "      - " + o.name + ": " + Show(Or(o.friendlyExpression, o.expression))
  }

  /** The Markdown report's routing line: the default marker, else the raw
      expression when it is non-empty, else the friendly one. */
  function MarkdownRouteLine(o: ConditionalOutput): (r: string)
    ensures o.isDefault ==> r == "- `" + o.name + "`: Default (unmatched rows)"
    ensures !o.isDefault && Truthy(o.expression) ==> r == "- `" + o.name + "`: `" + o.expression.value + "`"
  {
    if o.isDefault then "- `" + o.name + "`: Default (unmatched rows)"
    else "- `" + o.name + "`: `" + Show(Or(o.expression, o.friendlyExpression)) + "`"
  }

  /** The two reports disagree on which expression to show: with both
      present, the text report and the routing diagram show the friendly
      one and the Markdown report shows the raw one. */
  lemma RouteExpressionPreference(o: ConditionalOutput)
    requires !o.isDefault && Truthy(o.expression) && Truthy(o.friendlyExpression)
    ensures TextRouteLine(o) == "      - " + o.name + ": " + o.friendlyExpression.value
    ensures MarkdownRouteLine(o) == "- `" + o.name + "`: `" + o.expression.value + "`"
  {
  }

  /** A non-default condition with neither expression is shown as the
      text `None` in the text report, and as empty or `None` in Markdown. */
  lemma MissingExpressionShowsNone(o: ConditionalOutput)
    requires !o.isDefault && o.expression == None && o.friendlyExpression == None
    ensures TextRouteLine(o) == "      - " + o.name + ": None"
    ensures MarkdownRouteLine(o) == "- `" + o.name + "`: `None`"
  {
  }

  // ---------------------------------------------------------------------
  // `save_report`

  /** The extension `ext_map` gives a format, `.txt` for an unknown one. */
  function ExtensionFor(format: string): (e: string)
    ensures e in [".txt", ".md", ".json"]
    ensures |e| >= 3 && e[0] == '.' && '.' !in e[1..] && '/' !in e
    ensures format == "markdown" ==> e == ".md"
    ensures format == "json" ==> e == ".json"
    ensures format != "markdown" && format != "json" ==> e == ".txt"
  {
    if format == "text" then ".txt"
    else if format == "markdown" then ".md"
    else if format == "json" then ".json"
    else ".txt"
  }

  /** The extension that belongs to each report body. */
  function KindExtension(k: ReportKind): string {
    match k
    case JsonReport => ".json"
    case MarkdownReport => ".md"
    case TextReport => ".txt"
  }

  /** The file extension added always matches the report written: an
      unknown format gets the text report and `.txt`. */
  lemma ExtensionMatchesReport(format: string)
    ensures ExtensionFor(format) == KindExtension(ReportFor(format))
  {
  }

  /** `PurePath.name` of a path in normal form: its last `/` segment. */
  function PathName(path: string): (r: string)
    ensures '/' !in r
  {
    LastSegment(path, '/')
  }

  /** `PurePath.suffix` of a name: from its last `.` on, when that dot is
      neither the first nor the last character, else empty. */
  function Suffix(name: string): (r: string)
    ensures r != "" ==> 2 <= |r| < |name| && r[0] == '.' && '.' !in r[1..]
    ensures r != "" ==> r == name[|name| - |r|..]
    ensures '.' !in name ==> r == ""
  {
    var after := LastSegment(name, '.');
    if '.' in name && 0 < |after| && |after| + 1 < |name| then
      assert |after| < |name|;
      "." + after
    else ""
  }

  /** The file `save_report` writes: the path itself when its name has a
      suffix, otherwise the path with the format's extension appended
      (`with_suffix` on an empty suffix), and `None` where `with_suffix`
      raises because the name is empty. */
  function SaveTarget(path: string, format: string): (r: Option<string>)
    ensures Suffix(PathName(path)) != "" ==> r == Some(path)
    ensures Suffix(PathName(path)) == "" && PathName(path) != "" ==> r == Some(path + ExtensionFor(format))
    ensures r.None? <==> PathName(path) == ""
  {
    var name := PathName(path);
    if Suffix(name) != "" then Some(path)
    else if name == "" then None
    else Some(path + ExtensionFor(format))
  }

  /** The last segment of `a + b` when `b` has no separator. */
  lemma {:induction false} LastSegmentAppend(a: string, b: string, sep: char)
    requires sep !in b
    ensures LastSegment(a + b, sep) == LastSegment(a, sep) + b
    decreases |b|
  {
    if b == [] {
      assert a + b == a;
    } else {
      var b', c := b[..|b| - 1], b[|b| - 1];
      assert b == b' + [c];
      assert a + b == (a + b') + [c];
      LastSegmentSnoc(a + b', c, sep);
      LastSegmentAppend(a, b', sep);
    }
  }

  lemma LastSegmentSnoc(s: string, c: char, sep: char)
    requires c != sep
    ensures LastSegment(s + [c], sep) == LastSegment(s, sep) + [c]
  {
    assert (s + [c])[..|s|] == s;
  }

  /** A dot and a non-empty tail without dots, appended to a non-empty
      name, are the name's suffix. */
  lemma DottedTailIsSuffix(name: string, tail: string)
    requires name != "" && tail != "" && '.' !in tail
    ensures Suffix(name + ['.'] + tail) == "." + tail
  {
    var n := name + ['.'] + tail;
    LastSegmentAfter(name, tail, '.');
    assert n[|name|] == '.';
  }

  /** A dotted tail appended to a path with a non-empty name extends the
      name and becomes its suffix. */
  lemma AppendedTailIsSuffix(path: string, tail: string)
    requires PathName(path) != "" && tail != "" && '.' !in tail && '/' !in tail
    ensures PathName(path + ['.'] + tail) == PathName(path) + ['.'] + tail
    ensures Suffix(PathName(path + ['.'] + tail)) == ['.'] + tail
  {
    var name, e := PathName(path), ['.'] + tail;
    assert path + ['.'] + tail == path + e;
    assert name + ['.'] + tail == name + e;
    LastSegmentAppend(path, e, '/');
    assert PathName(path + e) == name + e;
    DottedTailIsSuffix(name, tail);
  }

  /** The appended extension becomes the suffix of the name written. */
  lemma AppendedExtensionIsSuffix(path: string, format: string)
    requires PathName(path) != ""
    ensures PathName(path + ExtensionFor(format)) == PathName(path) + ExtensionFor(format)
    ensures Suffix(PathName(path + ExtensionFor(format))) == ExtensionFor(format)
  {
    var e := ExtensionFor(format);
    var tail := e[1..];
    assert e == ['.'] + tail;
    assert path + e == path + ['.'] + tail;
    assert PathName(path) + e == PathName(path) + ['.'] + tail;
    AppendedTailIsSuffix(path, tail);
  }

  /** Saving is stable: a target `save_report` chose is kept as it is the
      next time, whatever the format. */
  lemma SaveTargetStable(path: string, format: string, format': string)
    requires SaveTarget(path, format).Some?
    ensures SaveTarget(SaveTarget(path, format).value, format') == SaveTarget(path, format)
  {
    if Suffix(PathName(path)) == "" {
      AppendedExtensionIsSuffix(path, format);
    }
  }

  /** A suffix that does not match the format is kept: a JSON report can be
      written to a `.md` file. */
  lemma MismatchedSuffixKept()
    ensures SaveTarget("report.md", "json") == Some("report.md")
  {
    assert "report.md" == "report" + ['.'] + "md";
    SuffixedNameKept("report", "md", "json");
  }

  /** A name with a suffix is saved under its own name, whatever the
      format. */
  lemma SuffixedNameKept(stem: string, tail: string, format: string)
    requires stem != "" && tail != "" && '.' !in tail && '/' !in stem && '/' !in tail
    ensures SaveTarget(stem + ['.'] + tail, format) == Some(stem + ['.'] + tail)
  {
    var n := stem + ['.'] + tail;
    assert '/' !in n;
    LastSegmentNoSep(n, '/');
    DottedTailIsSuffix(stem, tail);
  }

  /** A leading dot is not a suffix: a hidden name such as `.env` gets the
      format's extension appended, `.env.txt` for the text report. */
  lemma HiddenNameGetsExtension(tail: string, format: string)
    requires tail != "" && '.' !in tail && '/' !in tail
    ensures Suffix(['.'] + tail) == ""
    ensures SaveTarget(['.'] + tail, format) == Some(['.'] + tail + ExtensionFor(format))
  {
    var n := ['.'] + tail;
    assert '/' !in n;
    LastSegmentNoSep(n, '/');
    assert n == [] + ['.'] + tail;
    LastSegmentAfter([], tail, '.');
  }
}
