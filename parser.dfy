/** The extraction rules of `DtsxParser` for the control flow: the
    three-tier attribute lookup, connection-string fields, stages and their
    tasks and precedence constraints (variables, parameters and thresholds
    are in `Variables`). Each walker is stated over the abstract element tree. */
module Parser {
  import opened Basics
  import opened Text
  import opened Xml
  import opened Models
  import Linker

  const DtsUri: string := "www.microsoft.com/SqlServer/Dts"
  const SqlTaskUri: string := "www.microsoft.com/sqlserver/dts/tasks/sqltask"
  const SendMailUri: string := "www.microsoft.com/sqlserver/dts/tasks/sendmailtask"

  // ---------------------------------------------------------------------
  // Attributes

  /** The keys `_get_attr` tries, in order: namespaced, bare, `DTS:`-prefixed. */
  function AttrKeys(attr: string): (keys: seq<string>)
    ensures |keys| == 3
  {
    ["{" + DtsUri + "}" + attr, attr, "DTS:" + attr]
  }

  /** `_get_attr`: the value under the first of the three keys present in
      the element, otherwise the default. */
  function GetAttr(n: Node, attr: string, default: Option<string>): (r: Option<string>)
    ensures forall k :: 0 <= k < 3 && AttrKeys(attr)[k] in n.attrs && (forall j :: 0 <= j < k ==> AttrKeys(attr)[j] !in n.attrs)
              ==> r == Some(n.attrs[AttrKeys(attr)[k]])
    ensures (forall k :: 0 <= k < 3 ==> AttrKeys(attr)[k] !in n.attrs) ==> r == default
  {
    var keys := AttrKeys(attr);
    if keys[0] in n.attrs then Some(n.attrs[keys[0]])
    else if keys[1] in n.attrs then Some(n.attrs[keys[1]])
    else Get(n, keys[2], default)
  }

  /** `_get_attr` with a string default, which can then never yield `None`. */
  function GetAttrOr(n: Node, attr: string, default: string): (r: string)
    ensures GetAttr(n, attr, None).Some? ==> r == GetAttr(n, attr, None).value
    ensures GetAttr(n, attr, None).None? ==> r == default
  {
    GetAttr(n, attr, Some(default)).value
  }

  /** The three keys are distinct, so the order of the tiers is observable. */
  lemma AttrKeysDistinct(attr: string)
    ensures AttrKeys(attr)[0] != AttrKeys(attr)[1] && AttrKeys(attr)[1] != AttrKeys(attr)[2] && AttrKeys(attr)[0] != AttrKeys(attr)[2]
  {
    var keys := AttrKeys(attr);
    assert |keys[0]| == |attr| + |DtsUri| + 2 && |keys[2]| == |attr| + 4;
  }

  /** An attribute found under none of the keys takes the default; one found
      under any key is never replaced by the default. */
  lemma GetAttrFound(n: Node, attr: string, default: Option<string>)
    ensures GetAttr(n, attr, default).Some? <==> default.Some? || exists k :: 0 <= k < 3 && AttrKeys(attr)[k] in n.attrs
    ensures (exists k :: 0 <= k < 3 && AttrKeys(attr)[k] in n.attrs) ==> GetAttr(n, attr, default) == GetAttr(n, attr, None)
  {
    var keys := AttrKeys(attr);
    if keys[0] in n.attrs {
    } else if keys[1] in n.attrs {
    } else if keys[2] in n.attrs {
    } else {
      assert forall k :: 0 <= k < 3 ==> keys[k] !in n.attrs;
    }
  }

  /** An attribute written with a literal `DTS:` prefix by a tool that did not
      declare the namespace is still found. */
  lemma PrefixedAttributeResolves(attr: string, value: string)
    ensures GetAttr(Node("Executable", map["DTS:" + attr := value], None, []), attr, None) == Some(value)
  {
    var n := Node("Executable", map["DTS:" + attr := value], None, []);
    AttrKeysDistinct(attr);
    assert AttrKeys(attr)[0] !in n.attrs && AttrKeys(attr)[1] !in n.attrs;
  }

  // ---------------------------------------------------------------------
  // Connection strings

  const ServerKeys: seq<string> := ["Data Source=", "Server="]
  const DatabaseKeys: seq<string> := ["Initial Catalog=", "Database="]
  const ProviderKeys: seq<string> := ["Provider="]

  /** `s` starts with `p`, comparing ASCII letters without regard to case. */
  predicate StartsWithIgnoreCase(s: string, p: string) {
    |p| <= |s| && Lower(s[..|p|]) == Lower(p)
  }

  /** What the alternative `key([^;]+)` captures when tried at position `i`:
      the longest run of characters other than `;` after the key, provided
      it is not empty. */
  function KeyValueAt(s: string, i: nat, key: string): (r: Option<string>)
    requires i <= |s|
    ensures r.Some? ==> r.value != "" && ';' !in r.value
    ensures r.Some? ==> StartsWithIgnoreCase(s[i..], key) && r.value <= s[i + |key|..]
  {
    if StartsWithIgnoreCase(s[i..], key) && BeforeFirst(s[i + |key|..], ';') != "" then
      Some(BeforeFirst(s[i + |key|..], ';'))
    else None
  }

  /** The capture of the first alternative, in pattern order, that matches
      at position `i`. */
  function MatchAt(s: string, i: nat, keys: seq<string>): (r: Option<string>)
    requires i <= |s|
    ensures r.Some? ==> exists k :: (0 <= k < |keys| && KeyValueAt(s, i, keys[k]) == r
                                     && forall j :: 0 <= j < k ==> KeyValueAt(s, i, keys[j]).None?)
    ensures r.None? ==> forall k :: 0 <= k < |keys| ==> KeyValueAt(s, i, keys[k]).None?
  {
    if keys == [] then None
    else if KeyValueAt(s, i, keys[0]).Some? then KeyValueAt(s, i, keys[0])
    else
      var r := MatchAt(s, i, keys[1..]);
      assert forall k :: 0 <= k < |keys| - 1 ==> keys[1..][k] == keys[k + 1];
      r
  }

  /** `re.search(pattern, s, re.IGNORECASE).group(1)` from position `from`
      on: the capture at the leftmost position where some alternative
      matches. */
  function Search(s: string, keys: seq<string>, from: nat): (r: Option<string>)
    ensures r.None? ==> forall i :: from <= i <= |s| ==> MatchAt(s, i, keys).None?
    ensures r.Some? ==> exists i :: (from <= i <= |s| && MatchAt(s, i, keys) == r
                                     && forall j :: from <= j < i ==> MatchAt(s, j, keys).None?)
    decreases |s| + 1 - from
  {
    if from > |s| then None
    else if MatchAt(s, from, keys).Some? then MatchAt(s, from, keys)
    else
      var r := Search(s, keys, from + 1);
      assert r.Some? ==> exists i :: (from <= i <= |s| && MatchAt(s, i, keys) == r
                                      && forall j :: from <= j < i ==> MatchAt(s, j, keys).None?) by {
        if r.Some? {
          var i :| from + 1 <= i <= |s| && MatchAt(s, i, keys) == r
                   && forall j :: from + 1 <= j < i ==> MatchAt(s, j, keys).None?;
          assert forall j :: from <= j < i ==> MatchAt(s, j, keys).None?;
        }
      }
      r
  }

  /** A capture is never empty and never holds a `;`. */
  lemma SearchValue(s: string, keys: seq<string>, from: nat)
    ensures Search(s, keys, from).Some? ==> Search(s, keys, from).value != "" && ';' !in Search(s, keys, from).value
  {
    var r := Search(s, keys, from);
    if r.Some? {
      var i :| from <= i <= |s| && MatchAt(s, i, keys) == r;
      var k :| 0 <= k < |keys| && KeyValueAt(s, i, keys[k]) == r;
    }
  }

  datatype ConnectionParts = ConnectionParts(server: Option<string>, database: Option<string>, provider: Option<string>)

  /** `_parse_connection_string`. */
  function ParseConnectionString(cs: Option<string>): (r: ConnectionParts)
    ensures !Truthy(cs) ==> r == ConnectionParts(None, None, None)
    ensures Truthy(cs) ==> r.server == Search(cs.value, ServerKeys, 0)
    ensures Truthy(cs) ==> r.database == Search(cs.value, DatabaseKeys, 0)
    ensures Truthy(cs) ==> r.provider == Search(cs.value, ProviderKeys, 0)
  {
    if !Truthy(cs) then ConnectionParts(None, None, None)
    else ConnectionParts(Search(cs.value, ServerKeys, 0), Search(cs.value, DatabaseKeys, 0), Search(cs.value, ProviderKeys, 0))
  }

  /** Every field found is the non-empty text after one of its keys, up to
      the next `;` or the end. */
  lemma ConnectionFieldsWellFormed(cs: Option<string>)
    ensures var r := ParseConnectionString(cs);
            (r.server.Some? ==> r.server.value != "" && ';' !in r.server.value)
            && (r.database.Some? ==> r.database.value != "" && ';' !in r.database.value)
            && (r.provider.Some? ==> r.provider.value != "" && ';' !in r.provider.value)
  {
    if Truthy(cs) {
      SearchValue(cs.value, ServerKeys, 0);
      SearchValue(cs.value, DatabaseKeys, 0);
      SearchValue(cs.value, ProviderKeys, 0);
    }
  }

  lemma NoMatchBefore(s: string, keys: seq<string>, i: nat)
    requires i <= |s|
    requires forall k :: 0 <= k < |keys| ==> !StartsWithIgnoreCase(s[i..], keys[k])
    ensures MatchAt(s, i, keys).None?
  {
  }

  /** The search moves past positions where nothing matches. */
  lemma {:induction false} SearchSkips(s: string, keys: seq<string>, from: nat, to: nat)
    requires from <= to <= |s|
    requires forall i :: from <= i < to ==> MatchAt(s, i, keys).None?
    ensures Search(s, keys, from) == Search(s, keys, to)
    decreases |s| - from
  {
    if from < to {
      assert MatchAt(s, from, keys).None?;
      assert Search(s, keys, from) == Search(s, keys, from + 1);
      SearchSkips(s, keys, from + 1, to);
    }
  }

  /** The connection string of the example below. */
  const ExampleConnection: string := "Data Source=" + "SRV01" + ";" + "Initial Catalog=" + "Sales" + ";" + "Provider=" + "SQLOLEDB"

  lemma ExampleServer()
    ensures Search(ExampleConnection, ServerKeys, 0) == Some("SRV01")
  {
    var s := ExampleConnection;
    var rest := ";" + "Initial Catalog=" + "Sales" + ";" + "Provider=" + "SQLOLEDB";
    assert s[0..][..12] == "Data Source=";
    assert s[12..] == "SRV01" + rest;
    BeforeFirstUpTo("SRV01", rest, ';');
    assert MatchAt(s, 0, ServerKeys) == Some("SRV01");
  }

  /** No alternative matches at a position whose character differs from
      the first character of every key. */
  lemma {:induction false} NoMatchInSegment(pre: string, seg: string, post: string, keys: seq<string>, lo: nat)
    requires lo <= |seg|
    requires forall k :: 0 <= k < |keys| ==> keys[k] != ""
    requires forall j, k :: lo <= j < |seg| && 0 <= k < |keys| ==> LowerChar(seg[j]) != LowerChar(keys[k][0])
    ensures forall i :: |pre| + lo <= i < |pre| + |seg| ==> MatchAt(pre + seg + post, i, keys).None?
  {
    var s := pre + seg + post;
    forall i | |pre| + lo <= i < |pre| + |seg|
      ensures MatchAt(s, i, keys).None?
    {
      assert s[i] == seg[i - |pre|];
      forall k | 0 <= k < |keys|
        ensures !StartsWithIgnoreCase(s[i..], keys[k])
      {
        if |keys[k]| <= |s[i..]| {
          assert Lower(s[i..][..|keys[k]|])[0] != Lower(keys[k])[0];
        }
      }
      NoMatchBefore(s, keys, i);
    }
  }

  lemma ExampleDatabaseStart()
    ensures MatchAt(ExampleConnection, 0, DatabaseKeys).None?
  {
    var s := ExampleConnection;
    assert s[0..][..16][0] == 'D';
    assert s[0..][..9] == "Data Sour";
    assert Lower("Data Sour")[4] != Lower("Database=")[4];
  }

  lemma ExampleDatabaseSkipKey()
    ensures forall i :: 1 <= i < 12 ==> MatchAt(ExampleConnection, i, DatabaseKeys).None?
  {
    var rest := "SRV01" + ";" + "Initial Catalog=" + "Sales" + ";" + "Provider=" + "SQLOLEDB";
    assert ExampleConnection == [] + "Data Source=" + rest;
    NoMatchInSegment([], "Data Source=", rest, DatabaseKeys, 1);
  }

  lemma ExampleDatabaseSkipValue()
    ensures forall i :: 12 <= i < 18 ==> MatchAt(ExampleConnection, i, DatabaseKeys).None?
  {
    var rest := "Initial Catalog=" + "Sales" + ";" + "Provider=" + "SQLOLEDB";
    assert ExampleConnection == "Data Source=" + "SRV01;" + rest;
    NoMatchInSegment("Data Source=", "SRV01;", rest, DatabaseKeys, 0);
  }

  /** A key followed by a value that runs to a `;` or to the end is captured. */
  lemma {:induction false} KeyValueAtJoin(pre: string, key: string, value: string, rest: string)
    requires value != "" && ';' !in value && (rest == [] || rest[0] == ';')
    ensures KeyValueAt(pre + key + value + rest, |pre|, key) == Some(value)
  {
    var s := pre + key + value + rest;
    assert s[|pre|..] == key + value + rest;
    assert s[|pre|..][..|key|] == key;
    assert s[|pre| + |key|..] == value + rest;
    BeforeFirstUpTo(value, rest, ';');
  }

  lemma ExampleDatabaseAt()
    ensures MatchAt(ExampleConnection, 18, DatabaseKeys) == Some("Sales")
  {
    var pre := "Data Source=" + "SRV01" + ";";
    assert ExampleConnection == pre + "Initial Catalog=" + "Sales" + (";" + "Provider=" + "SQLOLEDB");
    KeyValueAtJoin(pre, "Initial Catalog=", "Sales", ";" + "Provider=" + "SQLOLEDB");
  }

  lemma ExampleDatabase()
    ensures Search(ExampleConnection, DatabaseKeys, 0) == Some("Sales")
  {
    ExampleDatabaseStart();
    ExampleDatabaseSkipKey();
    ExampleDatabaseSkipValue();
    ExampleDatabaseAt();
    SearchSkips(ExampleConnection, DatabaseKeys, 0, 18);
  }

  lemma ExampleProviderSkip()
    ensures forall i :: 0 <= i < 40 ==> MatchAt(ExampleConnection, i, ProviderKeys).None?
  {
    var first := "Data Source=" + "SRV01" + ";";
    var second := "Initial Catalog=" + "Sales" + ";";
    var tail := "Provider=" + "SQLOLEDB";
    assert ExampleConnection == [] + first + (second + tail);
    NoMatchInSegment([], first, second + tail, ProviderKeys, 0);
    assert ExampleConnection == first + second + tail;
    NoMatchInSegment(first, second, tail, ProviderKeys, 0);
  }

  lemma ExampleProviderAt()
    ensures MatchAt(ExampleConnection, 40, ProviderKeys) == Some("SQLOLEDB")
  {
    var pre := "Data Source=" + "SRV01" + ";" + "Initial Catalog=" + "Sales" + ";";
    assert ExampleConnection == pre + "Provider=" + "SQLOLEDB" + [];
    KeyValueAtJoin(pre, "Provider=", "SQLOLEDB", []);
  }

  lemma ExampleProvider()
    ensures Search(ExampleConnection, ProviderKeys, 0) == Some("SQLOLEDB")
  {
    ExampleProviderSkip();
    ExampleProviderAt();
    SearchSkips(ExampleConnection, ProviderKeys, 0, 40);
  }

  /** An OLE DB connection string with all three fields. */
  lemma ConnectionStringExample()
    ensures ParseConnectionString(Some(ExampleConnection)) == ConnectionParts(Some("SRV01"), Some("Sales"), Some("SQLOLEDB"))
  {
    ExampleServer();
    ExampleDatabase();
    ExampleProvider();
  }

  // ---------------------------------------------------------------------
  // Stages and tasks

  /** The stage-kind markers in priority order, with the kind each selects. */
  const StageKinds: seq<(string, string)> :=
    [("SEQUENCE", "Sequence"), ("Pipeline", "DataFlow"), ("ExecuteSQLTask", "SqlTask"), ("SendMailTask", "SendMailTask")]

  /** `marker in exec_type or marker in creation_name`. */
  predicate Marked(execType: string, creationName: string, marker: string) {
    Contains(execType, marker) || Contains(creationName, marker)
  }

  /** The stage-kind classifier of `_parse_executable_as_stage`: the kind of
      the first marker, in priority order, found in either string (case
      matters); failing all, the executable type, else the creation name,
      else `Unknown`. */
  function ClassifyStage(execType: string, creationName: string): (r: string)
    ensures r != ""
    ensures forall k :: 0 <= k < |StageKinds| && Marked(execType, creationName, StageKinds[k].0)
              && (forall j :: 0 <= j < k ==> !Marked(execType, creationName, StageKinds[j].0))
              ==> r == StageKinds[k].1
    ensures (forall k :: 0 <= k < |StageKinds| ==> !Marked(execType, creationName, StageKinds[k].0))
              ==> r == (if execType != "" then execType else if creationName != "" then creationName else "Unknown")
  {
    assert StageKinds[0].0 == "SEQUENCE" && StageKinds[1].0 == "Pipeline";
    assert StageKinds[2].0 == "ExecuteSQLTask" && StageKinds[3].0 == "SendMailTask";
    if Marked(execType, creationName, "SEQUENCE") then "Sequence"
    else if Marked(execType, creationName, "Pipeline") then "DataFlow"
    else if Marked(execType, creationName, "ExecuteSQLTask") then "SqlTask"
    else if Marked(execType, creationName, "SendMailTask") then "SendMailTask"
    else if execType != "" then execType
    else if creationName != "" then creationName
    else "Unknown"
  }

  /** A container whose type names both a sequence and a pipeline is a
      sequence: the earlier marker wins. */
  lemma SequenceBeatsPipeline(creationName: string)
    ensures ClassifyStage("STOCK:SEQUENCE", creationName) == "Sequence"
  {
    ContainsRight("STOCK:", "SEQUENCE", "SEQUENCE") by { ContainsSelf("SEQUENCE"); }
    assert "STOCK:" + "SEQUENCE" == "STOCK:SEQUENCE";
    assert Marked("STOCK:SEQUENCE", creationName, StageKinds[0].0);
  }

  function ExecType(elem: Node): string {
    GetAttrOr(elem, "ExecutableType", "")
  }

  function CreationName(elem: Node): string {
    GetAttrOr(elem, "CreationName", "")
  }

  /** `obj.get('{uri}name', obj.get('prefix:name'))`. */
  function TaskDataGet(n: Node, uri: string, prefix: string, name: string): Option<string> {
    Get(n, "{" + uri + "}" + name, Get(n, prefix + ":" + name, None))
  }

  function ParamBinding(b: Node): ParamBindingInfo {
    ParamBindingInfo(TaskDataGet(b, SqlTaskUri, "SQLTask", "ParameterName"), TaskDataGet(b, SqlTaskUri, "SQLTask", "DtsVariableName"))
  }

  function ResultBinding(b: Node): ResultBindingInfo {
    ResultBindingInfo(TaskDataGet(b, SqlTaskUri, "SQLTask", "ResultName"), TaskDataGet(b, SqlTaskUri, "SQLTask", "DtsVariableName"))
  }

  /** The bindings below each SQL task data element, in order; a tag naming
      both kinds counts as a parameter binding. */
  function ParamBindings(datas: seq<Node>): seq<ParamBindingInfo>
  {
    if datas == [] then []
    else
      var bs := TagContains(Iter(datas[|datas| - 1]), "ParameterBinding");
      ParamBindings(datas[..|datas| - 1]) + seq(|bs|, i requires 0 <= i < |bs| => ParamBinding(bs[i]))
  }

  function ResultBindingNodes(ns: seq<Node>): seq<Node>
  {
    if ns == [] then []
    else
      (if !Contains(ns[0].tag, "ParameterBinding") && Contains(ns[0].tag, "ResultBinding") then [ns[0]] else [])
      + ResultBindingNodes(ns[1..])
  }

  function ResultBindings(datas: seq<Node>): seq<ResultBindingInfo>
  {
    if datas == [] then []
    else
      var bs := ResultBindingNodes(Iter(datas[|datas| - 1]));
      ResultBindings(datas[..|datas| - 1]) + seq(|bs|, i requires 0 <= i < |bs| => ResultBinding(bs[i]))
  }

  /** `_parse_sql_task_details`: statement, connection and result-set type
      from the last SQL task data element below the task (each later one
      overwrites them), bindings from all of them. */
  function SqlDetails(elem: Node): SqlTaskInfo {
    var datas := TagContains(Iter(elem), "SqlTaskData");
    if datas == [] then SqlTaskInfo(None, None, None, [], [])
    else
      var last := datas[|datas| - 1];
      SqlTaskInfo(
        TaskDataGet(last, SqlTaskUri, "SQLTask", "SqlStatementSource"),
        TaskDataGet(last, SqlTaskUri, "SQLTask", "Connection"),
        TaskDataGet(last, SqlTaskUri, "SQLTask", "ResultSetType"),
        ParamBindings(datas), ResultBindings(datas))
  }

  /** The text of the last `MessageSource` child over all mail data elements. */
  function LastMessageSource(datas: seq<Node>): Option<string> {
    if datas == [] then None
    else
      var sources := TagContains(datas[|datas| - 1].children, "MessageSource");
      if sources != [] then sources[|sources| - 1].text else LastMessageSource(datas[..|datas| - 1])
  }

  /** `_parse_sendmail_task_details`. */
  function MailDetails(elem: Node): MailTaskInfo {
    var datas := TagContains(Iter(elem), "SendMailTaskData");
    if datas == [] then MailTaskInfo(None, None, None, None, None)
    else
      var last := datas[|datas| - 1];
      MailTaskInfo(
        TaskDataGet(last, SendMailUri, "SendMailTask", "From"),
        TaskDataGet(last, SendMailUri, "SendMailTask", "To"),
        TaskDataGet(last, SendMailUri, "SendMailTask", "Subject"),
        LastMessageSource(datas),
        TaskDataGet(last, SendMailUri, "SendMailTask", "SMTPServer"))
  }

  /** `_parse_task`: the generic descriptor, with SQL or mail details added
      when the marker occurs in the executable type and creation name
      written one after the other. */
  function ParseTask(elem: Node): (t: TaskInfo)
    ensures t.name == GetAttrOr(elem, "ObjectName", "Unknown") && t.refId == GetAttrOr(elem, "refId", "")
    ensures t.taskType == (if ExecType(elem) != "" then ExecType(elem) else CreationName(elem))
    ensures t.sql.Some? <==> Contains(ExecType(elem) + CreationName(elem), "ExecuteSQLTask")
    ensures t.mail.Some? <==> Contains(ExecType(elem) + CreationName(elem), "SendMailTask")
  {
    var et, cn := ExecType(elem), CreationName(elem);
    TaskInfo(
      GetAttrOr(elem, "ObjectName", "Unknown"), GetAttrOr(elem, "refId", ""), GetAttrOr(elem, "DTSID", ""),
      if et != "" then et else cn,
      GetAttr(elem, "Description", None),
      if Contains(et + cn, "ExecuteSQLTask") then Some(SqlDetails(elem)) else None,
      if Contains(et + cn, "SendMailTask") then Some(MailDetails(elem)) else None)
  }

  /** Whatever the stage classifier calls an SQL task also gets SQL details,
      but the task parser also matches a marker split across the two
      attributes: an executable typed `Execute` with creation name `SQLTask`
      gets SQL details, while the stage classifier falls back to `Execute`. */
  lemma TaskMarkerSpansAttributes(elem: Node)
    requires ExecType(elem) == "Execute" && CreationName(elem) == "SQLTask"
    ensures ParseTask(elem).sql.Some?
    ensures ClassifyStage(ExecType(elem), CreationName(elem)) == "Execute"
  {
    ContainsSelf("ExecuteSQLTask");
    assert "Execute" + "SQLTask" == "ExecuteSQLTask";
    forall k | 0 <= k < |StageKinds|
      ensures !Marked("Execute", "SQLTask", StageKinds[k].0)
    {
      NotContainsLonger("Execute", StageKinds[k].0);
      NotContainsLonger("SQLTask", StageKinds[k].0);
    }
  }

  lemma MarkedImpliesJointMarker(execType: string, creationName: string, marker: string)
    requires Marked(execType, creationName, marker)
    ensures Contains(execType + creationName, marker)
  {
    if Contains(execType, marker) {
      ContainsLeft(execType, creationName, marker);
    } else {
      ContainsRight(execType, creationName, marker);
    }
  }

  /** The executables nested in `elem`'s `Executables` children. */
  function ChildTasks(elem: Node): seq<Node> {
    NestedContains(elem.children, "Executables", "Executable")
  }

  /** `_parse_executable_as_stage`. */
  function ParseExecutableAsStage(elem: Node, order: int): (s: ControlFlowStage)
    ensures s.order == order
    ensures s.stageType == ClassifyStage(ExecType(elem), CreationName(elem))
    ensures GetAttr(elem, "ObjectName", None).Some? ==> s.name == GetAttr(elem, "ObjectName", None).value
    ensures GetAttr(elem, "ObjectName", None).None? ==> s.name == "Stage_" + IntToString(order)
    ensures |s.tasks| == |ChildTasks(elem)| && forall i :: 0 <= i < |s.tasks| ==> s.tasks[i] == ParseTask(ChildTasks(elem)[i])
    ensures s.precedenceFrom == [] && s.precedenceTo == [] && s.condition == None
  {
    var nodes := ChildTasks(elem);
    NewStage(
      order, GetAttrOr(elem, "ObjectName", "Stage_" + IntToString(order)),
      ClassifyStage(ExecType(elem), CreationName(elem)), GetAttr(elem, "Description", None),
      seq(|nodes|, i requires 0 <= i < |nodes| => ParseTask(nodes[i])))
  }

  // ---------------------------------------------------------------------
  // Precedence constraints

  /** The `int(...)` conversions of `_parse_precedence_constraint` succeed. */
  predicate ConstraintNumbersValid(elem: Node) {
    (GetAttr(elem, "Value", None).Some? ==> IsIntLiteral(GetAttr(elem, "Value", None).value))
    && (Truthy(GetAttr(elem, "EvalOp", None)) ==> IsIntLiteral(GetAttr(elem, "EvalOp", None).value))
  }

  /** `_parse_precedence_constraint`. */
  function ParsePrecedenceConstraint(elem: Node): (c: PrecedenceConstraint)
    requires ConstraintNumbersValid(elem)
    ensures c.fromRef == GetAttrOr(elem, "From", "") && c.toRef == GetAttrOr(elem, "To", "")
    ensures GetAttr(elem, "Value", None).None? ==> c.value == OnSuccess
    ensures c.logicalAnd <==> GetAttr(elem, "LogicalAnd", None).None? || GetAttr(elem, "LogicalAnd", None) == Some("True")
    ensures c.expression == GetAttr(elem, "Expression", None)
    ensures c.evalOp.None? <==> !Truthy(GetAttr(elem, "EvalOp", None))
  {
    var value := GetAttr(elem, "Value", None);
    var evalOp := GetAttr(elem, "EvalOp", None);
    PrecedenceConstraint(
      GetAttrOr(elem, "ObjectName", ""), GetAttrOr(elem, "refId", ""), GetAttrOr(elem, "DTSID", ""),
      GetAttrOr(elem, "From", ""), GetAttrOr(elem, "To", ""),
      if value.Some? then IntValue(value.value) else 0,
      GetAttrOr(elem, "LogicalAnd", "True") == "True",
      GetAttr(elem, "Expression", None),
      if Truthy(evalOp) then Some(IntValue(evalOp.value)) else None)
  }

  /** A constraint element with only its endpoints gets the defaults of a new
      constraint: success, logical and, no expression, no evaluation op. */
  lemma BareConstraintDefaults(elem: Node)
    requires forall a :: a in ["Value", "LogicalAnd", "Expression", "EvalOp"] ==> GetAttr(elem, a, None).None?
    ensures ParsePrecedenceConstraint(elem) ==
      NewConstraint(GetAttrOr(elem, "ObjectName", ""), GetAttrOr(elem, "refId", ""), GetAttrOr(elem, "DTSID", ""),
                    GetAttrOr(elem, "From", ""), GetAttrOr(elem, "To", ""))
  {
    assert GetAttr(elem, "Value", None).None? && GetAttr(elem, "LogicalAnd", None).None?;
    assert GetAttr(elem, "Expression", None).None? && GetAttr(elem, "EvalOp", None).None?;
  }

  /** A `Value` written by `str` is read back as the same outcome. */
  lemma ConstraintValueRoundTrip(elem: Node, v: int)
    requires GetAttr(elem, "Value", None) == Some(IntToString(v))
    requires ConstraintNumbersValid(elem)
    ensures ParsePrecedenceConstraint(elem).value == v
  {
    IntToStringRoundTrip(v);
  }

  predicate AllConstraintsValid(ns: seq<Node>) {
    forall c :: c in ns ==> ConstraintNumbersValid(c)
  }

  function ParseConstraints(ns: seq<Node>): (cs: seq<PrecedenceConstraint>)
    requires AllConstraintsValid(ns)
    ensures |cs| == |ns| && forall k :: 0 <= k < |ns| ==> cs[k] == ParsePrecedenceConstraint(ns[k])
  {
    seq(|ns|, k requires 0 <= k < |ns| => ParsePrecedenceConstraint(ns[k]))
  }

  // ---------------------------------------------------------------------
  // The control flow

  /** The `Executable` children of the root's `Executables` children. */
  function StageNodes(root: Node): seq<Node> {
    NestedContains(root.children, "Executables", "Executable")
  }

  /** The `PrecedenceConstraint` children of the root's
      `PrecedenceConstraints` children. */
  function ConstraintNodes(root: Node): seq<Node> {
    NestedContains(root.children, "PrecedenceConstraints", "PrecedenceConstraint")
  }

  /** The stages as parsed, numbered from 1, before linking. */
  function NumberedStages(nodes: seq<Node>): (s: seq<ControlFlowStage>)
    ensures |s| == |nodes|
  {
    seq(|nodes|, i requires 0 <= i < |nodes| => ParseExecutableAsStage(nodes[i], i + 1))
  }

  lemma NestedContainsStep(ns: seq<Node>, i: nat, outer: string, inner: string)
    requires i < |ns|
    ensures NestedContains(ns[..i + 1], outer, inner)
         == NestedContains(ns[..i], outer, inner) + (if Contains(ns[i].tag, outer) then TagContains(ns[i].children, inner) else [])
  {
    assert ns[..i + 1] == ns[..i] + [ns[i]];
    NestedContainsAppend(ns[..i], [ns[i]], outer, inner);
    assert [ns[i]][1..] == [];
  }

  lemma TagContainsStep(ns: seq<Node>, j: nat, marker: string)
    requires j < |ns|
    ensures TagContains(ns[..j + 1], marker) == TagContains(ns[..j], marker) + (if Contains(ns[j].tag, marker) then [ns[j]] else [])
  {
    assert ns[..j + 1] == ns[..j] + [ns[j]];
    TagContainsAppend(ns[..j], [ns[j]], marker);
    assert [ns[j]][1..] == [];
  }

  /** An element picked by the nested walk is among its results. */
  lemma NestedMember(ns: seq<Node>, i: nat, x: Node, outer: string, inner: string)
    requires i < |ns| && Contains(ns[i].tag, outer) && x in ns[i].children && Contains(x.tag, inner)
    ensures x in NestedContains(ns, outer, inner)
  {
    assert ns == ns[..i] + ns[i..];
    NestedContainsAppend(ns[..i], ns[i..], outer, inner);
    TagContainsMembers(ns[i].children, inner);
  }

  /** Stage `i` (from 0) is the `i`-th executable parsed with order `i + 1`. */
  lemma NumberedStagesAt(nodes: seq<Node>)
    ensures forall i :: 0 <= i < |nodes| ==> NumberedStages(nodes)[i] == ParseExecutableAsStage(nodes[i], i + 1)
    ensures forall i :: 0 <= i < |nodes| ==> NumberedStages(nodes)[i].order == i + 1
  {
  }

  lemma NumberedStagesSnoc(nodes: seq<Node>, x: Node)
    ensures NumberedStages(nodes + [x]) == NumberedStages(nodes) + [ParseExecutableAsStage(x, |nodes| + 1)]
  {
    var l, r := NumberedStages(nodes + [x]), NumberedStages(nodes) + [ParseExecutableAsStage(x, |nodes| + 1)];
    assert |l| == |r|;
    forall i | 0 <= i < |l|
      ensures l[i] == r[i]
    {
      if i < |nodes| {
        assert (nodes + [x])[i] == nodes[i];
      }
    }
  }

  lemma ParseConstraintsSnoc(nodes: seq<Node>, x: Node)
    requires AllConstraintsValid(nodes) && ConstraintNumbersValid(x)
    ensures AllConstraintsValid(nodes + [x])
    ensures ParseConstraints(nodes + [x]) == ParseConstraints(nodes) + [ParsePrecedenceConstraint(x)]
  {
    var l, r := ParseConstraints(nodes + [x]), ParseConstraints(nodes) + [ParsePrecedenceConstraint(x)];
    forall i | 0 <= i < |l|
      ensures l[i] == r[i]
    {
      if i < |nodes| {
        assert (nodes + [x])[i] == nodes[i];
      }
    }
  }

  /** The inner loop of the first walk: the `Executable` children of one
      `Executables` container, numbered on from `stageOrder`. */
  method ParseStagesIn(container: Node, ghost seen: seq<Node>, parsed: seq<ControlFlowStage>, stageOrder: int)
    returns (parsed': seq<ControlFlowStage>, stageOrder': int)
    requires parsed == NumberedStages(seen) && stageOrder == |seen|
    ensures parsed' == NumberedStages(seen + TagContains(container.children, "Executable"))
    ensures stageOrder' == |parsed'|
  {
    parsed', stageOrder' := parsed, stageOrder;
    ghost var seen' := seen;
    var j := 0;
    while j < |container.children|
      invariant 0 <= j <= |container.children|
      invariant seen' == seen + TagContains(container.children[..j], "Executable")
      invariant parsed' == NumberedStages(seen')
      invariant stageOrder' == |seen'|
    {
      var executable := container.children[j];
      TagContainsStep(container.children, j, "Executable");
      if Contains(executable.tag, "Executable") {
        NumberedStagesSnoc(seen', executable);
        stageOrder' := stageOrder' + 1;
        parsed' := parsed' + [ParseExecutableAsStage(executable, stageOrder')];
        seen' := seen' + [executable];
      }
      j := j + 1;
    }
    assert container.children[..|container.children|] == container.children;
  }

  /** The first loop of `_parse_control_flow`: the root-level executables,
      numbered from 1 in the order they are met. */
  method ParseStages(root: Node) returns (parsed: seq<ControlFlowStage>)
    ensures parsed == NumberedStages(StageNodes(root))
  {
    parsed := [];
    var stageOrder := 0;
    var i := 0;
    while i < |root.children|
      invariant 0 <= i <= |root.children|
      invariant parsed == NumberedStages(NestedContains(root.children[..i], "Executables", "Executable"))
      invariant stageOrder == |parsed|
    {
      var elem := root.children[i];
      NestedContainsStep(root.children, i, "Executables", "Executable");
      if Contains(elem.tag, "Executables") {
        parsed, stageOrder := ParseStagesIn(elem, NestedContains(root.children[..i], "Executables", "Executable"), parsed, stageOrder);
      }
      i := i + 1;
    }
    assert root.children[..|root.children|] == root.children;
  }

  /** The inner loop of the second walk: the `PrecedenceConstraint` children
      of one `PrecedenceConstraints` container. */
  method ParseConstraintsIn(container: Node, ghost seen: seq<Node>, constraints: seq<PrecedenceConstraint>)
    returns (constraints': seq<PrecedenceConstraint>)
    requires AllConstraintsValid(seen) && constraints == ParseConstraints(seen)
    requires AllConstraintsValid(TagContains(container.children, "PrecedenceConstraint"))
    ensures AllConstraintsValid(seen + TagContains(container.children, "PrecedenceConstraint"))
    ensures constraints' == ParseConstraints(seen + TagContains(container.children, "PrecedenceConstraint"))
  {
    constraints' := constraints;
    ghost var seen' := seen;
    var j := 0;
    while j < |container.children|
      invariant 0 <= j <= |container.children|
      invariant seen' == seen + TagContains(container.children[..j], "PrecedenceConstraint")
      invariant AllConstraintsValid(seen')
      invariant constraints' == ParseConstraints(seen')
    {
      var constraint := container.children[j];
      TagContainsStep(container.children, j, "PrecedenceConstraint");
      if Contains(constraint.tag, "PrecedenceConstraint") {
        TagContainsMembers(container.children, "PrecedenceConstraint");
        ParseConstraintsSnoc(seen', constraint);
        constraints' := constraints' + [ParsePrecedenceConstraint(constraint)];
        seen' := seen' + [constraint];
      }
      j := j + 1;
    }
    assert container.children[..|container.children|] == container.children;
  }

  /** The second loop of `_parse_control_flow`: the root-level constraints. */
  method ParseRootConstraints(root: Node) returns (constraints: seq<PrecedenceConstraint>)
    requires AllConstraintsValid(ConstraintNodes(root))
    ensures constraints == ParseConstraints(ConstraintNodes(root))
  {
    constraints := [];
    var i := 0;
    while i < |root.children|
      invariant 0 <= i <= |root.children|
      invariant AllConstraintsValid(NestedContains(root.children[..i], "PrecedenceConstraints", "PrecedenceConstraint"))
      invariant constraints == ParseConstraints(NestedContains(root.children[..i], "PrecedenceConstraints", "PrecedenceConstraint"))
    {
      var elem := root.children[i];
      NestedContainsStep(root.children, i, "PrecedenceConstraints", "PrecedenceConstraint");
      if Contains(elem.tag, "PrecedenceConstraints") {
        forall c | c in TagContains(elem.children, "PrecedenceConstraint")
          ensures ConstraintNumbersValid(c)
        {
          TagContainsMembers(elem.children, "PrecedenceConstraint");
          NestedMember(root.children, i, c, "PrecedenceConstraints", "PrecedenceConstraint");
        }
        constraints := ParseConstraintsIn(elem, NestedContains(root.children[..i], "PrecedenceConstraints", "PrecedenceConstraint"), constraints);
      }
      i := i + 1;
    }
    assert root.children[..|root.children|] == root.children;
  }

  /** `_parse_control_flow`: number the root-level executables from 1 as
      they are met, parse the root-level constraints, then link. The model
      returns `crashed` where the linker raises. */
  method ParseControlFlow(root: Node) returns (stages: seq<ControlFlowStage>, constraints: seq<PrecedenceConstraint>, crashed: bool)
    requires AllConstraintsValid(ConstraintNodes(root))
    ensures constraints == ParseConstraints(ConstraintNodes(root))
    ensures |stages| == |StageNodes(root)|
    ensures forall i :: 0 <= i < |stages| ==> stages[i].order == i + 1
    ensures forall i :: 0 <= i < |stages| ==> Linker.SameStage(stages[i], ParseExecutableAsStage(StageNodes(root)[i], i + 1))
    ensures var parsed := NumberedStages(StageNodes(root));
            Linker.LinkAll(parsed, Linker.StageIndex(parsed, constraints), constraints) == Linker.LinkState(stages, crashed)
  {
    var parsed := ParseStages(root);
    constraints := ParseRootConstraints(root);
    var slots := new ControlFlowStage[|parsed|](k requires 0 <= k < |parsed| => parsed[k]);
    assert slots[..] == parsed;
    var byRef := Linker.BuildStageIndex(parsed, constraints);
    crashed := Linker.Link(slots, byRef, constraints);
    stages := slots[..];
    Linker.LinkFrame(parsed, byRef, constraints);
    NumberedStagesAt(StageNodes(root));
  }
}
