/** The records the analyser builds from a package (dtsx_parser/models.py).
    Python's `Optional[...]` fields are `Option`s; `Dict[str, Any]` task
    descriptors become `TaskInfo`, whose optional parts are the keys that
    the SQL-task and mail-task sub-parsers merge in. A stage is a value
    here; the linker updates stages in place in an array (module Linker). */
module Models {
  import opened Basics

  /** SSIS `DTS:DataType` codes. */
  datatype DataType =
    | Int16 | Int32 | Single | Double | Currency | DateTime | String | Boolean | Object
    | Decimal | Int8 | UInt8 | UInt16 | UInt32 | Int64 | UInt64 | Guid | Bytes | WString
    | Numeric | DbTimestamp

  function Code(t: DataType): int {
    match t
    case Int16 => 2
    case Int32 => 3
    case Single => 4
    case Double => 5
    case Currency => 6
    case DateTime => 7
    case String => 8
    case Boolean => 11
    case Object => 13
    case Decimal => 14
    case Int8 => 16
    case UInt8 => 17
    case UInt16 => 18
    case UInt32 => 19
    case Int64 => 20
    case UInt64 => 21
    case Guid => 72
    case Bytes => 128
    case WString => 129
    case Numeric => 131
    case DbTimestamp => 135
  }

  /** Python's `DataType(code)`, with `None` where the enum raises. */
  function FromCode(c: int): Option<DataType> {
    if c == 2 then Some(Int16) else if c == 3 then Some(Int32)
    else if c == 4 then Some(Single) else if c == 5 then Some(Double)
    else if c == 6 then Some(Currency) else if c == 7 then Some(DateTime)
    else if c == 8 then Some(String) else if c == 11 then Some(Boolean)
    else if c == 13 then Some(Object) else if c == 14 then Some(Decimal)
    else if c == 16 then Some(Int8) else if c == 17 then Some(UInt8)
    else if c == 18 then Some(UInt16) else if c == 19 then Some(UInt32)
    else if c == 20 then Some(Int64) else if c == 21 then Some(UInt64)
    else if c == 72 then Some(Guid) else if c == 128 then Some(Bytes)
    else if c == 129 then Some(WString) else if c == 131 then Some(Numeric)
    else if c == 135 then Some(DbTimestamp) else None
  }

  /** The type code the parser uses when a variable or parameter declares none. */
  const DefaultTypeCode: int := 8

  /** Each data type has exactly one code, and a code names at most one type. */
  lemma CodeRoundTrip(t: DataType, c: int)
    ensures FromCode(Code(t)) == Some(t)
    ensures FromCode(c) == Some(t) ==> Code(t) == c
    ensures FromCode(DefaultTypeCode) == Some(String)
  {
  }

  datatype PackageMetadata = PackageMetadata(
    name: string,
    dtsid: string,
    creationDate: Option<string>,
    creatorName: Option<string>,
    creatorComputer: Option<string>,
    versionBuild: Option<string>,
    versionGuid: Option<string>,
    packageFormatVersion: Option<string>,
    lastModifiedVersion: Option<string>,
    description: Option<string>,
    localeId: Option<string>)

  datatype Annotation = Annotation(
    refId: string,
    description: Option<string>,
    tag: Option<string>,
    text: Option<string>,
    creationDate: Option<string>)

  datatype ConnectionManager = ConnectionManager(
    name: string,
    refId: string,
    dtsid: string,
    connectionType: string,
    connectionString: Option<string>,
    server: Option<string>,
    database: Option<string>,
    provider: Option<string>,
    description: Option<string>,
    properties: map<string, string>)

  datatype Variable = Variable(
    name: string,
    namespace: string,
    dtsid: string,
    dataType: int,
    value: Option<string>,
    expression: Option<string>,
    description: Option<string>,
    readOnly: bool,
    raiseEventOnChange: bool)

  datatype Parameter = Parameter(
    name: string,
    dtsid: string,
    dataType: int,
    value: Option<string>,
    description: Option<string>,
    sensitive: bool,
    required: bool)

  datatype Column = Column(
    name: string,
    refId: Option<string>,
    dataType: Option<string>,
    length: Option<int>,
    precision: Option<int>,
    scale: Option<int>,
    isNullable: bool)

  datatype OutputColumn = OutputColumn(
    name: string,
    refId: Option<string>,
    dataType: Option<string>,
    length: Option<int>,
    expression: Option<string>,
    description: Option<string>)

  /** One branch of a fan-out component. */
  datatype ConditionalOutput = ConditionalOutput(
    name: string,
    expression: Option<string>,
    friendlyExpression: Option<string>,
    evaluationOrder: Option<int>,
    isDefault: bool)

  function NewConditionalOutput(name: string): (o: ConditionalOutput)
    ensures o.name == name && !o.isDefault
    ensures o.expression == None && o.friendlyExpression == None && o.evaluationOrder == None
  {
    ConditionalOutput(name, None, None, None, false)
  }

  datatype DataFlowComponent = DataFlowComponent(
    name: string,
    refId: string,
    componentType: string,
    componentClass: string,
    description: Option<string>,
    inputColumns: seq<Column>,
    outputColumns: seq<OutputColumn>,
    conditionalOutputs: seq<ConditionalOutput>,
    connectionManager: Option<string>,
    sqlCommand: Option<string>,
    tableName: Option<string>,
    properties: map<string, Option<string>>,
    hasErrorOutput: bool)

  function NewComponent(name: string, refId: string, componentType: string, componentClass: string): (c: DataFlowComponent)
    ensures c.name == name && c.refId == refId
    ensures c.componentType == componentType && c.componentClass == componentClass
    ensures c.description == None
    ensures c.inputColumns == [] && c.outputColumns == [] && c.conditionalOutputs == [] && c.properties == map[]
    ensures c.connectionManager == None && c.sqlCommand == None && c.tableName == None
    ensures !c.hasErrorOutput
  {
    DataFlowComponent(name, refId, componentType, componentClass, None, [], [], [], None, None, None, map[], false)
  }

  /** `[c for c in components if c.component_type == t]`. */
  function OfType(cs: seq<DataFlowComponent>, t: string): (r: seq<DataFlowComponent>)
    ensures |r| <= |cs|
    ensures forall i :: 0 <= i < |r| ==> r[i].componentType == t
    decreases |cs|
  {
    if cs == [] then []
    else
      var init := OfType(cs[..|cs| - 1], t);
      var c := cs[|cs| - 1];
      if c.componentType == t then init + [c] else init
  }

  /** The filter keeps exactly the components of the type. */
  lemma {:induction false} OfTypeMembers(cs: seq<DataFlowComponent>, t: string, c: DataFlowComponent)
    ensures c in OfType(cs, t) <==> c in cs && c.componentType == t
    decreases |cs|
  {
    if cs != [] {
      var init := cs[..|cs| - 1];
      OfTypeMembers(init, t, c);
      assert cs == init + [cs[|cs| - 1]];
    }
  }

  datatype DataFlowPath = DataFlowPath(
    name: string,
    refId: string,
    sourceRefId: string,
    destinationRefId: string,
    sourceComponent: Option<string>,
    destinationComponent: Option<string>)

  datatype DataFlowTask = DataFlowTask(
    name: string,
    refId: string,
    dtsid: string,
    description: Option<string>,
    components: seq<DataFlowComponent>,
    paths: seq<DataFlowPath>)

  datatype ParameterBinding = ParameterBinding(
    parameterName: string,
    variableName: string,
    direction: string,
    dataType: Option<int>)

  datatype ResultBinding = ResultBinding(resultName: string, variableName: string)

  datatype SqlTask = SqlTask(
    name: string,
    refId: string,
    dtsid: string,
    description: Option<string>,
    connectionRef: Option<string>,
    sqlStatement: Option<string>,
    resultSetType: Option<string>,
    parameterBindings: seq<ParameterBinding>,
    resultBindings: seq<ResultBinding>)

  datatype SendMailTask = SendMailTask(
    name: string,
    refId: string,
    dtsid: string,
    description: Option<string>,
    smtpConnection: Option<string>,
    fromAddress: Option<string>,
    toAddress: Option<string>,
    subject: Option<string>,
    messageSource: Option<string>,
    priority: string)

  /** Outcome values of a precedence constraint. */
  const OnSuccess: int := 0
  const OnFailure: int := 1
  const OnCompletion: int := 2

  datatype PrecedenceConstraint = PrecedenceConstraint(
    name: string,
    refId: string,
    dtsid: string,
    fromRef: string,
    toRef: string,
    value: int,
    logicalAnd: bool,
    expression: Option<string>,
    evalOp: Option<int>)

  function NewConstraint(name: string, refId: string, dtsid: string, fromRef: string, toRef: string): (c: PrecedenceConstraint)
    ensures c.name == name && c.refId == refId && c.dtsid == dtsid
    ensures c.fromRef == fromRef && c.toRef == toRef
    ensures c.value == OnSuccess && c.logicalAnd
    ensures c.expression == None && c.evalOp == None
  {
    PrecedenceConstraint(name, refId, dtsid, fromRef, toRef, 0, true, None, None)
  }

  /** A task or, as the subclass `SequenceContainer`, a container of tasks. */
  datatype Executable =
    | Executable(
        name: string, refId: string, dtsid: string, executableType: string,
        description: Option<string>, disabled: bool, delayValidation: bool)
    | SequenceContainer(
        name: string, refId: string, dtsid: string, executableType: string,
        description: Option<string>, disabled: bool, delayValidation: bool,
        executables: seq<Executable>, precedenceConstraints: seq<PrecedenceConstraint>)

  /** `{'parameter_name': .., 'variable_name': ..}` of an SQL task. */
  datatype ParamBindingInfo = ParamBindingInfo(parameterName: Option<string>, variableName: Option<string>)

  /** `{'result_name': .., 'variable_name': ..}` of an SQL task. */
  datatype ResultBindingInfo = ResultBindingInfo(resultName: Option<string>, variableName: Option<string>)

  /** The keys the SQL-task sub-parser adds to a task descriptor. */
  datatype SqlTaskInfo = SqlTaskInfo(
    sqlStatement: Option<string>,
    connection: Option<string>,
    resultSetType: Option<string>,
    parameterBindings: seq<ParamBindingInfo>,
    resultBindings: seq<ResultBindingInfo>)

  /** The keys the mail-task sub-parser adds to a task descriptor. */
  datatype MailTaskInfo = MailTaskInfo(
    fromAddress: Option<string>,
    toAddress: Option<string>,
    subject: Option<string>,
    messageSource: Option<string>,
    smtpConnection: Option<string>)

  /** A task descriptor: the generic keys, plus each sub-parser's keys when
      its marker matched (the two key sets are disjoint, so merging them
      into one dictionary loses nothing). */
  datatype TaskInfo = TaskInfo(
    name: string,
    refId: string,
    dtsid: string,
    taskType: string,
    description: Option<string>,
    sql: Option<SqlTaskInfo>,
    mail: Option<MailTaskInfo>)

  datatype ControlFlowStage = ControlFlowStage(
    order: int,
    name: string,
    stageType: string,
    description: Option<string>,
    tasks: seq<TaskInfo>,
    precedenceFrom: seq<string>,
    precedenceTo: seq<string>,
    condition: Option<string>)

  /** A stage as the parser creates it, before linking. */
  function NewStage(order: int, name: string, stageType: string, description: Option<string>, tasks: seq<TaskInfo>): (s: ControlFlowStage)
    ensures s.order == order && s.name == name && s.stageType == stageType
    ensures s.description == description && s.tasks == tasks
    ensures s.precedenceFrom == [] && s.precedenceTo == [] && s.condition == None
  {
    ControlFlowStage(order, name, stageType, description, tasks, [], [], None)
  }

  datatype EventHandler = EventHandler(
    name: string,
    refId: string,
    dtsid: string,
    eventName: string,
    executables: seq<TaskInfo>,
    precedenceConstraints: seq<PrecedenceConstraint>)

  datatype ErrorHandlingStrategy = ErrorHandlingStrategy(
    eventHandlers: seq<EventHandler>,
    errorOutputs: seq<map<string, string>>,
    failPackageOnFailure: bool,
    maxErrorCount: int,
    loggingMode: Option<string>,
    loggedEvents: seq<Option<string>>)

  /** The strategy as the parser builds it: it passes handlers, error
      outputs, logging mode and logged events, and leaves the two policy
      fields at their defaults. */
  function NewErrorHandling(
    eventHandlers: seq<EventHandler>, errorOutputs: seq<map<string, string>>,
    loggingMode: Option<string>, loggedEvents: seq<Option<string>>): (e: ErrorHandlingStrategy)
    ensures e.eventHandlers == eventHandlers && e.errorOutputs == errorOutputs
    ensures e.loggingMode == loggingMode && e.loggedEvents == loggedEvents
    ensures e.failPackageOnFailure && e.maxErrorCount == 1
  {
    ErrorHandlingStrategy(eventHandlers, errorOutputs, true, 1, loggingMode, loggedEvents)
  }

  datatype DatabaseObject = DatabaseObject(
    name: string,
    objectType: string,
    schema: string,
    database: Option<string>,
    connection: Option<string>,
    usage: string)

  function NewDatabaseObject(name: string, objectType: string): (o: DatabaseObject)
    ensures o.name == name && o.objectType == objectType
    ensures o.schema == "dbo" && o.usage == "Unknown"
    ensures o.database == None && o.connection == None
  {
    DatabaseObject(name, objectType, "dbo", None, None, "Unknown")
  }

  datatype Threshold = Threshold(
    name: string,
    value: Option<string>,
    dataType: string,
    description: Option<string>,
    category: string,
    action: Option<string>)

  datatype Alert = Alert(
    name: string,
    alertType: string,
    condition: Option<string>,
    recipients: Option<string>,
    priority: string,
    category: string)

  /** A diagram edge `(source, destination, label)`; the label is `caption`. */
  datatype Edge = Edge(source: string, dest: string, caption: string)

  datatype DataFlowDiagram = DataFlowDiagram(
    name: string,
    components: seq<string>,
    paths: seq<Edge>,
    mermaidCode: Option<string>,
    asciiDiagram: Option<string>)

  datatype DtsxPackage = DtsxPackage(
    metadata: PackageMetadata,
    annotations: seq<Annotation>,
    connectionManagers: seq<ConnectionManager>,
    variables: seq<Variable>,
    parameters: seq<Parameter>,
    controlFlowStages: seq<ControlFlowStage>,
    dataFlowTasks: seq<DataFlowTask>,
    errorHandling: Option<ErrorHandlingStrategy>,
    databaseObjects: seq<DatabaseObject>,
    thresholds: seq<Threshold>,
    alerts: seq<Alert>,
    dataFlowDiagrams: seq<DataFlowDiagram>,
    rawPrecedenceConstraints: seq<PrecedenceConstraint>)
}
