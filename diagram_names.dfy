/** The naming helpers of `DiagramGenerator` (dtsx_parser/diagram_generator.py):
    turning display names into flowchart node ids, resolving the stage and
    component a reference string points at, and cleaning guard expressions
    for display. Reference strings are backslash-delimited paths such as
    `Package\Load Sales\Output`. */
module DiagramNames {
  import opened Basics
  import opened Text
  import opened Models

  // ---------------------------------------------------------------------
  // `_sanitize_id`

  /** The characters a node id keeps: ASCII letters and digits, and `_`. */
  predicate IdChar(c: char) {
    IsAlnum(c) || c == '_'
  }

  /** The character a separator becomes: space, `-` and `.` turn into `_`. */
  function Underscore(c: char): char {
    if c == ' ' || c == '-' || c == '.' then '_' else c
  }

  /** `''.join(c for c in s if c.isalnum() or c == '_')`. */
  function KeepIdChars(s: string): (r: string)
    ensures forall i :: 0 <= i < |r| ==> IdChar(r[i])
    ensures |r| <= |s|
  {
    if s == [] then []
    else if IdChar(s[0]) then [s[0]] + KeepIdChars(s[1..])
    else KeepIdChars(s[1..])
  }

  lemma {:induction false} KeepIdCharsKeepsAll(s: string)
    requires forall i :: 0 <= i < |s| ==> IdChar(s[i])
    ensures KeepIdChars(s) == s
  {
    if s != [] {
      KeepIdCharsKeepsAll(s[1..]);
    }
  }

  /** `_sanitize_id`: three replacements, then the filter. The result holds
      only id characters and is never longer than the name. */
  function SanitizeId(name: string): (r: string)
    ensures forall i :: 0 <= i < |r| ==> IdChar(r[i])
    ensures |r| <= |name|
  {
    var a := Replace(name, " ", "_");
    var b := Replace(a, "-", "_");
    var c := Replace(b, ".", "_");
    ReplaceShrinks(name, " ", "_");
    ReplaceShrinks(a, "-", "_");
    ReplaceShrinks(b, ".", "_");
    KeepIdChars(c)
  }

  /** The three replacements act character by character: the id is the
      name with every separator turned into `_`, then filtered. */
  lemma SanitizeIdPointwise(name: string)
    ensures SanitizeId(name) == KeepIdChars(seq(|name|, i requires 0 <= i < |name| => Underscore(name[i])))
  {
    var a := Replace(name, " ", "_");
    var b := Replace(a, "-", "_");
    var c := Replace(b, ".", "_");
    ReplaceCharPointwise(name, ' ', '_');
    ReplaceCharPointwise(a, '-', '_');
    ReplaceCharPointwise(b, '.', '_');
    assert c == seq(|name|, i requires 0 <= i < |name| => Underscore(name[i]));
  }

  /** A name made of id characters and separators keeps its length, and
      each separator becomes `_` in place. */
  lemma SanitizeIdSeparators(name: string)
    requires forall i :: 0 <= i < |name| ==> IdChar(name[i]) || name[i] in " -."
    ensures |SanitizeId(name)| == |name|
    ensures forall i :: 0 <= i < |name| ==> SanitizeId(name)[i] == Underscore(name[i])
  {
    SanitizeIdPointwise(name);
    KeepIdCharsKeepsAll(seq(|name|, i requires 0 <= i < |name| => Underscore(name[i])));
  }

  /** Sanitizing an id changes nothing. */
  lemma SanitizeIdIdempotent(name: string)
    ensures SanitizeId(SanitizeId(name)) == SanitizeId(name)
  {
    var r := SanitizeId(name);
    ContainsChar(r, ' ');
    ContainsChar(r, '-');
    ContainsChar(r, '.');
    ReplaceAbsent(r, " ", "_");
    ReplaceAbsent(r, "-", "_");
    ReplaceAbsent(r, ".", "_");
    KeepIdCharsKeepsAll(r);
  }

  /** Different display names can share one node id: names that differ
      only in which separator joins two parts collide. */
  lemma SanitizeIdCollision(a: string, b: string)
    ensures SanitizeId(a + " " + b) == SanitizeId(a + "-" + b) == SanitizeId(a + "." + b)
  {
    var n1, n2, n3 := a + " " + b, a + "-" + b, a + "." + b;
    SanitizeIdPointwise(n1);
    SanitizeIdPointwise(n2);
    SanitizeIdPointwise(n3);
    var u1 := seq(|n1|, i requires 0 <= i < |n1| => Underscore(n1[i]));
    var u2 := seq(|n2|, i requires 0 <= i < |n2| => Underscore(n2[i]));
    var u3 := seq(|n3|, i requires 0 <= i < |n3| => Underscore(n3[i]));
    assert u1 == u2 == u3;
  }

  // ---------------------------------------------------------------------
  // `_extract_stage_name`

  /** The text after the last backslash, or the whole reference. */
  function ExtractStageName(ref: string): (r: string)
    ensures '\\' !in r
    ensures |r| <= |ref| && r == ref[|ref| - |r|..]
    ensures |r| < |ref| ==> ref[|ref| - |r| - 1] == '\\'
    ensures '\\' !in ref ==> r == ref
  {
    if '\\' !in ref then
      LastSegmentNoSep(ref, '\\');
      LastSegment(ref, '\\')
    else LastSegment(ref, '\\')
  }

  // ---------------------------------------------------------------------
  // Guard labels

  /** `expr.replace('@[User::', '').replace(']', '')`, as the execution-order
      listing shows a guard. */
  function StripVariableRefs(expr: string): (r: string)
    ensures ']' !in r
    ensures |r| <= |expr|
  {
    var a := Replace(expr, "@[User::", "");
    ReplaceShrinks(expr, "@[User::", "");
    ReplaceShrinks(a, "]", "");
    ReplaceRemovesChar(a, ']', "");
    Replace(a, "]", "")
  }

  /** The label of a guarded edge: references stripped, then `==` shown as `=`. */
  function CleanLabel(expr: string): (r: string)
    ensures ']' !in r
    ensures |r| <= |expr|
  {
    var b := StripVariableRefs(expr);
    ReplaceShrinks(b, "==", "=");
    ReplaceKeepsAbsent(b, "==", "=", ']');
    Replace(b, "==", "=")
  }

  // ---------------------------------------------------------------------
  // `_extract_component_name`

  /** Pass 1: the component's ref id or its name occurs in the reference. */
  predicate DirectMatch(ref: string, c: DataFlowComponent) {
    Contains(ref, c.refId) || Contains(ref, c.name)
  }

  /** Pass 2: the reference's last segment, cut at its first `.`, is the
      component's name or occurs in its ref id. */
  predicate PartMatch(part: string, c: DataFlowComponent) {
    part == c.name || Contains(c.refId, part)
  }

  /** `parts[-1].split('.')[0] if '.' in parts[-1] else parts[-1]`. */
  function ComponentPart(ref: string): (r: string)
    ensures '\\' !in r && '.' !in r
  {
    var last := LastSegment(ref, '\\');
    var r := BeforeFirst(last, '.');
    assert '\\' !in r by {
      forall i | 0 <= i < |r| ensures r[i] != '\\' {
        assert r[i] == last[i];
      }
    }
    r
  }

  /** The first component in list order that passes the direct test. */
  function FirstDirect(ref: string, cs: seq<DataFlowComponent>): (r: Option<nat>)
    ensures r.Some? ==> r.value < |cs| && DirectMatch(ref, cs[r.value])
    ensures r.Some? ==> forall j :: 0 <= j < r.value ==> !DirectMatch(ref, cs[j])
    ensures r.None? ==> forall j :: 0 <= j < |cs| ==> !DirectMatch(ref, cs[j])
  {
    if cs == [] then None
    else if DirectMatch(ref, cs[0]) then Some(0)
    else
      var r := FirstDirect(ref, cs[1..]);
      assert forall j :: 1 <= j < |cs| ==> cs[j] == cs[1..][j - 1];
      if r.Some? then Some(r.value + 1) else None
  }

  /** The first component in list order that passes the segment test. */
  function FirstPart(part: string, cs: seq<DataFlowComponent>): (r: Option<nat>)
    ensures r.Some? ==> r.value < |cs| && PartMatch(part, cs[r.value])
    ensures r.Some? ==> forall j :: 0 <= j < r.value ==> !PartMatch(part, cs[j])
    ensures r.None? ==> forall j :: 0 <= j < |cs| ==> !PartMatch(part, cs[j])
  {
    if cs == [] then None
    else if PartMatch(part, cs[0]) then Some(0)
    else
      var r := FirstPart(part, cs[1..]);
      assert forall j :: 1 <= j < |cs| ==> cs[j] == cs[1..][j - 1];
      if r.Some? then Some(r.value + 1) else None
  }

  /** `_extract_component_name`: the second pass runs only when the direct
      pass finds nothing and the reference has more than one segment. */
  function ExtractComponentName(ref: string, cs: seq<DataFlowComponent>): (r: Option<string>)
    ensures r.Some? ==> exists i :: 0 <= i < |cs| && r.value == cs[i].name
  {
    var d := FirstDirect(ref, cs);
    if d.Some? then Some(cs[d.value].name)
    else if '\\' in ref then
      var p := FirstPart(ComponentPart(ref), cs);
      if p.Some? then Some(cs[p.value].name) else None
    else None
  }

  /** Pass 1 decides: the first component in list order whose ref id or
      name occurs in the reference is the answer. */
  lemma FirstDirectMatchWins(ref: string, cs: seq<DataFlowComponent>, k: nat)
    requires k < |cs| && DirectMatch(ref, cs[k])
    requires forall j :: 0 <= j < k ==> !DirectMatch(ref, cs[j])
    ensures ExtractComponentName(ref, cs) == Some(cs[k].name)
  {
    var d := FirstDirect(ref, cs);
    assert d.Some?;
    assert d.value == k;
  }

  /** Pass 2 decides when pass 1 finds nothing and the reference has a
      backslash: the first component matching the last segment. */
  lemma FirstPartMatchWins(ref: string, cs: seq<DataFlowComponent>, k: nat)
    requires forall j :: 0 <= j < |cs| ==> !DirectMatch(ref, cs[j])
    requires '\\' in ref
    requires k < |cs| && PartMatch(ComponentPart(ref), cs[k])
    requires forall j :: 0 <= j < k ==> !PartMatch(ComponentPart(ref), cs[j])
    ensures ExtractComponentName(ref, cs) == Some(cs[k].name)
  {
    var p := FirstPart(ComponentPart(ref), cs);
    assert FirstDirect(ref, cs).None?;
    assert p.Some?;
    assert p.value == k;
  }

  /** A reference resolves to nothing exactly when no component passes the
      direct test and the reference is a single segment or no component
      passes the segment test either. */
  lemma ComponentNameNone(ref: string, cs: seq<DataFlowComponent>)
    ensures ExtractComponentName(ref, cs).None? <==>
      (forall j :: 0 <= j < |cs| ==> !DirectMatch(ref, cs[j])) &&
      ('\\' !in ref || forall j :: 0 <= j < |cs| ==> !PartMatch(ComponentPart(ref), cs[j]))
  {
  }

  /** A component with an empty ref id matches every reference, so with one
      in the list every reference resolves. */
  lemma EmptyRefIdMatches(ref: string, cs: seq<DataFlowComponent>, k: nat)
    requires k < |cs| && cs[k].refId == ""
    ensures ExtractComponentName(ref, cs).Some?
  {
    ContainsEmpty(ref);
    assert DirectMatch(ref, cs[k]);
  }
}
