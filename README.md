# A verified model of the SSIS `.dtsx` analyser

The analyser reads a SQL Server Integration Services package and does four things:

- It extracts the package's control flow: numbered stages, the tasks inside them, and the precedence constraints between them.
- It extracts the data flows of its pipeline tasks: components, their conditional outputs, and the paths between them.
- It renders both as Mermaid flowcharts, ASCII drawings, an execution-order listing and a routing-logic listing.
- It summarises the result in text, Markdown or JSON reports.

This project models that parse-and-derive layer in Dafny and proves what each step promises.

- An XML element is an abstract tree value: tag, attribute map, optional text and children. ElementTree's `iter()` is a pre-order walk over it (`Xml`).
- The records of the analyser are datatypes (`Models`).
- Each extraction walker is a method with loops. It is proved equal to a fold over the children, and the walker's guarantees are proved about that fold:
  - the attribute resolver, connection strings, stages, constraints and tasks (`Parser`);
  - variables, parameters and thresholds (`Variables`);
  - data-flow components (`Components`).
- The precedence linker updates an array of stages in place. It is proved against a step function, and the lemmas state exactly which successors, predecessors and conditions result, and when it raises (`Linker`).
- Each diagram renderer builds its list of lines in a loop and is proved equal to a specification function. The properties of the pictures are proved about those functions:
  - naming helpers (`DiagramNames`);
  - ASCII drawings (`AsciiDiagrams`);
  - Mermaid and diagram assembly (`Diagrams`);
  - the execution-order and routing listings (`Listings`).
- The report generator's pure decisions are modelled: format dispatch, short names, the component summary, routing lines and the file name chosen on save (`Reports`).

## Where the code and its description disagree

The model follows the code in each case.

- A lookup's outgoing paths are described as yielding one "Match goes to" line and one "No Match goes to" line. The code tests `'Match' in path.name` first, and both `NoMatch` and `No Match` contain `Match`. Every lookup path with a resolved destination is therefore printed as "Match goes to" (`Listings.LookupNoMatchUnreachable`, `Listings.LookupLinesAllMatch`). `Listings.IntendedLookupLine` tests the no-match spellings first; `Listings.IntendedLookupNoMatch` and `Listings.IntendedLookupBothOutputs` prove that it gives the described pair of lines where the code gives two match lines.
- The data-flow graph keeps a path when both endpoint names are truthy. A component whose name is the empty string is resolved but still drops the path (`Diagrams.DataFlowEdge`). When the first component is unnamed, it occurs in every reference, so every path is dropped (`Diagrams.UnnamedFirstComponentDropsAll`). `Diagrams.ResolvedDataFlowEdge` keeps a path whenever both ends resolve (`Diagrams.ResolvedEdgeKept`, `Diagrams.ResolvedEdgesMembers`).
- The multicast section is described as listing every outgoing edge. The code lists only paths whose source ref mentions the component and whose destination resolves (`Listings.MulticastLines`, `Listings.MulticastDestinations`). `Listings.MulticastOutgoing` is the unfiltered set of outgoing paths; `Listings.MulticastListsResolvedOutgoing` proves that the listing is no longer than it, and equally long exactly when every outgoing destination resolves.

## Model

| member | source | states |
|---|---|---|
| `Models.CodeRoundTrip` | dtsx_parser/models.py:12-34 | each data type has one code, a code names at most one type, and the default code 8 is `STRING` |
| `Models.NewConditionalOutput` | dtsx_parser/models.py:128-134 | a new conditional output is not the default and has no expression, friendly expression or evaluation order |
| `Models.NewComponent` | dtsx_parser/models.py:138-152 | a new component has empty column, output and property collections, no connection, SQL or table, and no error output |
| `Models.NewConstraint` | dtsx_parser/models.py:223-233 | a new constraint means success, is a logical and, and has no expression or evaluation op |
| `Models.NewStage` | dtsx_parser/models.py:256-265 | a new stage has no predecessors, no successors and no condition |
| `Models.NewErrorHandling` | dtsx_parser/parser.py:688-693 | the strategy the parser builds keeps fail-on-failure true and a maximum error count of 1 |
| `Models.NewDatabaseObject` | dtsx_parser/models.py:291-298 | a new database object has schema `dbo` and usage `Unknown` |
| `Models.OfType` | dtsx_parser/diagram_generator.py:246-248 | the filter keeps only components of the requested type and never grows the list |
| `Models.OfTypeMembers` | dtsx_parser/report_generator.py:386-393 | a component is in a type's group exactly when it is in the task and has that type |
| `Parser.AttrKeys` | dtsx_parser/parser.py:87-99 | the resolver tries exactly three keys |
| `Parser.GetAttr` | dtsx_parser/parser.py:87-99 | the value under the first present key (namespaced, bare, `DTS:`-prefixed) is returned, otherwise the default |
| `Parser.GetAttrOr` | dtsx_parser/parser.py:87-99 | with a string default the resolver never yields `None` |
| `Parser.AttrKeysDistinct` | dtsx_parser/parser.py:87-99 | the three keys differ, so their priority order is observable |
| `Parser.GetAttrFound` | dtsx_parser/parser.py:87-99 | the result is absent exactly when no key is present and the default is absent; a present key is never overridden by the default |
| `Parser.PrefixedAttributeResolves` | dtsx_parser/parser.py:97-99 | an attribute written with a literal `DTS:` prefix is found |
| `Parser.KeyValueAt` | dtsx_parser/parser.py:200-204 | a capture after a key is non-empty, holds no `;`, and follows a case-insensitive occurrence of the key |
| `Parser.MatchAt` | dtsx_parser/parser.py:200-207 | at one position the first alternative in pattern order that matches decides the capture |
| `Parser.Search` | dtsx_parser/parser.py:206-214 | the search returns the capture at the leftmost matching position, or nothing when no position matches |
| `Parser.SearchValue` | dtsx_parser/parser.py:200-214 | a value the search captures is never empty and never holds a `;` |
| `Parser.ParseConnectionString` | dtsx_parser/parser.py:190-216 | a missing or empty string gives three `None`; otherwise each field is the leftmost case-insensitive search for its keys |
| `Parser.ConnectionFieldsWellFormed` | dtsx_parser/parser.py:200-214 | every field found is non-empty and contains no `;` |
| `Parser.SearchSkips` | dtsx_parser/parser.py:207 | positions where no alternative matches can be skipped |
| `Parser.NoMatchBefore` | dtsx_parser/parser.py:200-204 | no alternative matches where no key starts |
| `Parser.NoMatchInSegment` | dtsx_parser/parser.py:200-204 | no alternative matches inside text whose characters begin no key |
| `Parser.KeyValueAtJoin` | dtsx_parser/parser.py:200-204 | a key followed by a value up to `;` or the end captures that value |
| `Parser.ExampleServer` | dtsx_parser/parser.py:201 | the server of the sample OLE DB string is `SRV01` |
| `Parser.ExampleDatabaseStart` | dtsx_parser/parser.py:202 | the database keys do not match at the start of the sample |
| `Parser.ExampleDatabaseSkipKey` | dtsx_parser/parser.py:202 | the database keys do not match inside the server key |
| `Parser.ExampleDatabaseSkipValue` | dtsx_parser/parser.py:202 | the database keys do not match inside the server value |
| `Parser.ExampleDatabaseAt` | dtsx_parser/parser.py:202 | `Initial Catalog=` matches at position 18 and captures `Sales` |
| `Parser.ExampleDatabase` | dtsx_parser/parser.py:202 | the database of the sample is `Sales` |
| `Parser.ExampleProviderSkip` | dtsx_parser/parser.py:203 | `Provider=` does not match before position 40 of the sample |
| `Parser.ExampleProviderAt` | dtsx_parser/parser.py:203 | `Provider=` matches at position 40 and captures `SQLOLEDB` |
| `Parser.ExampleProvider` | dtsx_parser/parser.py:203 | the provider of the sample is `SQLOLEDB` |
| `Parser.ConnectionStringExample` | dtsx_parser/parser.py:190-216 | `Data Source=SRV01;Initial Catalog=Sales;Provider=SQLOLEDB` gives (SRV01, Sales, SQLOLEDB) |
| `Parser.ClassifyStage` | dtsx_parser/parser.py:305-315 | the kind of the first marker (SEQUENCE, Pipeline, ExecuteSQLTask, SendMailTask) found in either string decides; otherwise the executable type, else the creation name, else `Unknown` |
| `Parser.SequenceBeatsPipeline` | dtsx_parser/parser.py:306-309 | a type naming both a sequence and a pipeline is a sequence |
| `Parser.ParseTask` | dtsx_parser/parser.py:334-357 | the descriptor's name, ref and type follow the defaults, and SQL or mail details are added exactly when the marker occurs in the two attributes joined |
| `Parser.TaskMarkerSpansAttributes` | dtsx_parser/parser.py:306-315 | a marker split across the two attributes gets SQL details although the stage classifier does not see it |
| `Parser.MarkedImpliesJointMarker` | dtsx_parser/parser.py:348 | a marker the classifier sees also occurs in the joined attributes |
| `Parser.ParseExecutableAsStage` | dtsx_parser/parser.py:300-332 | the stage carries its order and classified kind; a missing `ObjectName` becomes `Stage_<order>`; its tasks are the nested executables parsed in order; the link fields are empty |
| `Parser.ParsePrecedenceConstraint` | dtsx_parser/parser.py:437-449 | endpoints default to empty refs, a missing value means success, `LogicalAnd` is true unless present and not `True`, and the evaluation op is absent exactly when its attribute is empty or missing |
| `Parser.BareConstraintDefaults` | dtsx_parser/parser.py:437-449 | a constraint element with only its endpoints equals a new constraint |
| `Parser.ConstraintValueRoundTrip` | dtsx_parser/parser.py:445 | a value written as an integer reads back unchanged |
| `Parser.ParseConstraints` | dtsx_parser/parser.py:290-293 | one constraint per element, in order |
| `Parser.NumberedStages` | dtsx_parser/parser.py:279-285 | one stage per executable element |
| `Parser.NumberedStagesAt` | dtsx_parser/parser.py:276-285 | stage `i` is the `i`-th executable parsed with order `i + 1` |
| `Parser.NumberedStagesSnoc` | dtsx_parser/parser.py:283-285 | the next executable met gets the next order |
| `Parser.ParseConstraintsSnoc` | dtsx_parser/parser.py:291-293 | the next constraint element met is appended |
| `Parser.NestedContainsStep` | dtsx_parser/parser.py:279-282 | the nested walk grows container by container |
| `Parser.TagContainsStep` | dtsx_parser/parser.py:281-282 | the filtered children grow child by child |
| `Parser.NestedMember` | dtsx_parser/parser.py:279-282 | every executable under a root-level container is visited |
| `Parser.ParseStagesIn` | dtsx_parser/parser.py:281-285 | the inner loop numbers the container's executables on from the current order |
| `Parser.ParseStages` | dtsx_parser/parser.py:276-285 | the first loop yields the root-level executables numbered from 1 in document order |
| `Parser.ParseConstraintsIn` | dtsx_parser/parser.py:290-293 | the inner loop parses the container's constraints in order |
| `Parser.ParseRootConstraints` | dtsx_parser/parser.py:287-293 | the second loop yields the root-level constraints in order |
| `Parser.ParseControlFlow` | dtsx_parser/parser.py:272-298 | stages are numbered 1..n in encounter order, constraints are returned as parsed, and the stages are the linker's result, a raise included |
| `Linker.LastNamedIn` | dtsx_parser/parser.py:456-462 | the last stage in list order whose name occurs in the ref |
| `Linker.StageIndex` | dtsx_parser/parser.py:455-462 | a constraint ref is keyed exactly when some stage name occurs in it, and then to the last such stage |
| `Linker.RefSet` | dtsx_parser/parser.py:458-462 | the refs are exactly the constraint endpoints |
| `Linker.IndexRowEntry` | dtsx_parser/parser.py:458-462 | for one ref, one stage's pass keys it exactly when it is an endpoint containing the name, and otherwise keeps its entry |
| `Linker.IndexRowKeys` | dtsx_parser/parser.py:458-462 | one stage's pass keys exactly the endpoints containing its name and keeps other entries |
| `Linker.IndexFoldEntry` | dtsx_parser/parser.py:455-462 | after the first loop a ref's entry is the last stage naming it |
| `Linker.IndexFoldIsStageIndex` | dtsx_parser/parser.py:455-462 | the loop's map equals the declarative ref index |
| `Linker.BuildStageIndex` | dtsx_parser/parser.py:455-462 | the map built by the nested loops is the ref index |
| `Linker.AddPredecessor` | dtsx_parser/parser.py:474-475 | appending a predecessor keeps the number of stages; which predecessors result is stated by `Linker.LinkPredecessors` |
| `Linker.Step` | dtsx_parser/parser.py:465-475 | one constraint keeps the number of stages; its effect on successors, predecessors and conditions is stated by `Linker.LinkSuccessors`, `Linker.LinkPredecessors` and `Linker.LinkConditions` |
| `Linker.LinkAll` | dtsx_parser/parser.py:465-475 | the whole loop keeps the number of stages; its result is stated by `Linker.LinkSuccessors`, `Linker.LinkPredecessors` and `Linker.LinkConditions` |
| `Linker.CrashIsFinal` | dtsx_parser/parser.py:472 | once the linker has raised, later constraints are never read |
| `Linker.Link` | dtsx_parser/parser.py:465-475 | the in-place loop over the stage array leaves the stages, and whether it raised, as the step function says |
| `Linker.PrefixStep` | dtsx_parser/parser.py:465 | the constraints are consumed one at a time |
| `Linker.LinkFrame` | dtsx_parser/parser.py:465-475 | only the successor and predecessor lists and the condition change |
| `Linker.LinkDistinctSuccessors` | dtsx_parser/parser.py:469-470 | no successor is listed twice |
| `Linker.LinkDistinctPredecessors` | dtsx_parser/parser.py:474-475 | no predecessor is listed twice |
| `Linker.StepSuccessors` | dtsx_parser/parser.py:466-470 | one constraint adds its target ref to the successors of the stage its source resolves to, and changes no other successor list |
| `Linker.StepPredecessors` | dtsx_parser/parser.py:466-475 | one constraint adds its source ref to the predecessors of the stage its target resolves to, and changes no other predecessor list |
| `Linker.LinkSuccessors` | dtsx_parser/parser.py:466-470 | a stage's successors are its initial ones plus the targets of constraints whose source resolves to it, and nothing else |
| `Linker.LinkPredecessors` | dtsx_parser/parser.py:466-475 | a stage's predecessors are its initial ones plus the sources of constraints whose target resolves to it, even when the source does not resolve |
| `Linker.LinkConditions` | dtsx_parser/parser.py:469-472 | the linker raises exactly when a guarded, newly recorded constraint has an unresolved target; otherwise each condition is the last such expression aimed at the stage |
| `Linker.LinkedLists` | dtsx_parser/parser.py:451-475 | for freshly parsed stages the lists are exactly the resolved constraints' refs, without duplicates, and the other fields are kept |
| `Linker.LinkedConditions` | dtsx_parser/parser.py:469-472 | for the whole constraint list, the raise condition and the resulting conditions |
| `Linker.ConditionSource` | dtsx_parser/parser.py:471-472 | a condition is only ever set to a non-empty expression of a constraint aimed at that stage |
| `Linker.UnresolvedGuardedTargetRaises` | dtsx_parser/parser.py:472 | a guarded constraint from a known stage to a ref naming no stage raises |
| `Variables.TypeCode` | dtsx_parser/parser.py:227-231 | an absent `DataType` gives 8, the code of `STRING` |
| `Variables.TypeCodeRoundTrip` | dtsx_parser/parser.py:231 | a type code written as text reads back unchanged |
| `Variables.FirstValueIndex` | dtsx_parser/parser.py:229-233 | the first `VariableValue` child, where the loop breaks |
| `Variables.VariableWithoutValue` | dtsx_parser/parser.py:226-227 | a variable without a value child is a string with no value |
| `Variables.VariableFromFirstValue` | dtsx_parser/parser.py:229-233 | value and type come from the first value child only |
| `Variables.ParseVariable` | dtsx_parser/parser.py:225-243 | the loop body builds the variable the declarative rule describes |
| `Variables.MembersInMembers` | dtsx_parser/parser.py:224-243 | every variable comes from a `Variable` member, and every such member yields one |
| `Variables.VariablesInMembers` | dtsx_parser/parser.py:222-243 | the variables are exactly those declared in containers whose tag ends in `Variables` but not `PackageVariables` |
| `Variables.PackageVariablesSkipped` | dtsx_parser/parser.py:223 | a `PackageVariables` container adds nothing |
| `Variables.ParseMembers` | dtsx_parser/parser.py:224-243 | the inner loop appends one container's variables |
| `Variables.ParseVariables` | dtsx_parser/parser.py:218-245 | the walk over `root.iter()` yields the variables in document order |
| `Variables.FirstParameterValue` | dtsx_parser/parser.py:256-259 | the first `ParameterValue` property, where the loop breaks |
| `Variables.ParameterDefaultType` | dtsx_parser/parser.py:264 | a parameter without `DataType` is a string |
| `Variables.ParseParameter` | dtsx_parser/parser.py:254-268 | the loop body builds the parameter the declarative rule describes |
| `Variables.ParameterMembersInMembers` | dtsx_parser/parser.py:253-268 | every parameter comes from a `PackageParameter` member, and every such member yields one |
| `Variables.ParseParameterMembers` | dtsx_parser/parser.py:253-268 | the inner loop appends one container's parameters |
| `Variables.ParseParameters` | dtsx_parser/parser.py:247-270 | the walk over `root.iter()` yields the parameters in document order |
| `Variables.FirstPattern` | dtsx_parser/parser.py:870-871 | the first pattern in the fixed order that occurs in the name, ignoring case |
| `Variables.ThresholdCategory` | dtsx_parser/parser.py:857-879 | a name has no category exactly when no pattern matches; otherwise the category is that of the first matching pattern |
| `Variables.MatchCategory` | dtsx_parser/parser.py:870-879 | the pattern loop with its `break` computes the category |
| `Variables.ExtractThresholds` | dtsx_parser/parser.py:852-881 | the loop computes the thresholds variable by variable |
| `Variables.ThresholdsAppend` | dtsx_parser/parser.py:869-879 | the thresholds of two lists of variables are concatenated |
| `Variables.ThresholdsPerVariable` | dtsx_parser/parser.py:869-879 | each variable yields at most one threshold, in variable order |
| `Variables.ThresholdsShorter` | dtsx_parser/parser.py:869-879 | there are never more thresholds than variables |
| `Variables.ThresholdMembers` | dtsx_parser/parser.py:869-878 | a threshold exists exactly for each variable whose name matches, with its name, value and category |
| `Variables.NoFirstChar` | dtsx_parser/parser.py:871 | a pattern whose first letter is absent from the name does not match |
| `Variables.MaxFraudScoreIsPerformance` | dtsx_parser/parser.py:857-867 | `MaxFraudScore` is a performance threshold because `Max` comes first |
| `Components.ClassifyComponent` | dtsx_parser/parser.py:528-534 | `Source` in the class makes a source and is tested first, then `Destination`, else a transform |
| `Components.ComponentKinds` | dtsx_parser/parser.py:528-534 | every component gets one of the three kinds |
| `Components.SourceWinsOverDestination` | dtsx_parser/parser.py:529-532 | a class naming both is a source |
| `Components.PropsInAgree` | dtsx_parser/parser.py:543-552 | the SQL command and table name stay equal to the `SqlCommand` and `OpenRowset` entries of the map |
| `Components.PropsOfAgree` | dtsx_parser/parser.py:541-552 | the same over every `properties` container |
| `Components.PropsInKeys` | dtsx_parser/parser.py:543-547 | a name is in the map exactly when some `property` element carries it |
| `Components.LastPropertyWins` | dtsx_parser/parser.py:545-547 | the last property of a name decides its entry |
| `Components.ParsePropertiesIn` | dtsx_parser/parser.py:543-552 | the inner property loop computes the fold |
| `Components.ParseProperties` | dtsx_parser/parser.py:536-552 | the properties pass computes the fold over the component's children |
| `Components.BlockConditional` | dtsx_parser/parser.py:572-596 | a properties block yields an output, named after its output element, exactly when its expression is non-empty or it is the default |
| `Components.OutputColumnOf` | dtsx_parser/parser.py:603-609 | a column has a length exactly when its `length` attribute is non-empty |
| `Components.ParseConditionalBlock` | dtsx_parser/parser.py:577-587 | the property loop keeps the last value of each property name |
| `Components.ParseConditionals` | dtsx_parser/parser.py:570-596 | the blocks of one output yield its conditional outputs in order |
| `Components.ParseOutputColumnsIn` | dtsx_parser/parser.py:601-609 | the column loop of one container |
| `Components.ParseOutputColumns` | dtsx_parser/parser.py:599-609 | the columns of one output |
| `Components.ParseOutput` | dtsx_parser/parser.py:562-609 | one output: error flag, then conditional outputs, then columns |
| `Components.ParseOutputsIn` | dtsx_parser/parser.py:561-609 | the output loop of one container |
| `Components.ParseOutputs` | dtsx_parser/parser.py:554-609 | the outputs pass computes the fold |
| `Components.InputColumnOf` | dtsx_parser/parser.py:621-626 | an input column has a length exactly when `cachedLength` is non-empty, and keeps the column defaults |
| `Components.ParseInputColumnsIn` | dtsx_parser/parser.py:619-626 | the column loop of one input container |
| `Components.ParseInput` | dtsx_parser/parser.py:617-626 | the columns of one input |
| `Components.ParseInputsIn` | dtsx_parser/parser.py:615-626 | the input loop of one container |
| `Components.ParseInputs` | dtsx_parser/parser.py:611-626 | the inputs pass computes the fold |
| `Components.FirstConnection` | dtsx_parser/parser.py:632-635 | the first `connection` child's manager ref, where the inner loop breaks |
| `Components.FindConnection` | dtsx_parser/parser.py:632-635 | the inner loop with its `break` |
| `Components.ParseConnection` | dtsx_parser/parser.py:628-635 | the connections pass computes the fold |
| `Components.ConnectionOfFound` | dtsx_parser/parser.py:628-635 | a connection is found exactly when some container has a `connection` child |
| `Components.LastWithConnection` | dtsx_parser/parser.py:630-635 | the last container that has a connection |
| `Components.ConnectionOfLast` | dtsx_parser/parser.py:630-635 | the `break` leaves only the inner loop, so the last container with a connection decides |
| `Components.ParseDataFlowComponent` | dtsx_parser/parser.py:524-651 | the four passes build the component the declarative rule describes |
| `Components.ComponentPropertiesAgree` | dtsx_parser/parser.py:547-552 | the SQL command and table name are the `SqlCommand` and `OpenRowset` entries of the property map |
| `Components.OutputsInError` | dtsx_parser/parser.py:561-565 | one container raises the flag exactly when one of its outputs says `isErrorOut="true"` |
| `Components.OutputsOfError` | dtsx_parser/parser.py:559-565 | the same over all containers |
| `Components.ComponentErrorOutput` | dtsx_parser/parser.py:563-565 | `has_error_output` holds exactly when some output's `isErrorOut` lowercases to `true` |
| `Components.ConditionalsInMembers` | dtsx_parser/parser.py:570-596 | an output's conditional outputs are exactly those its blocks yield |
| `Components.OutputsInConditionals` | dtsx_parser/parser.py:561-596 | the same for one outputs container |
| `Components.OutputsOfConditionals` | dtsx_parser/parser.py:559-596 | the same for all containers |
| `Components.ComponentConditionalOutputs` | dtsx_parser/parser.py:577-596 | the conditional outputs are exactly those of blocks with a non-empty expression or the default flag |
| `Components.DefaultBlockKept` | dtsx_parser/parser.py:586-590 | a block with only `IsDefaultOut` = `TRUE` is kept as the default |
| `Components.FriendlyOnlyBlockDropped` | dtsx_parser/parser.py:582-590 | a block with only a friendly expression yields nothing |
| `Components.ParseDataFlowPath` | dtsx_parser/parser.py:653-660 | `startId` and `endId` are the endpoint refs, and the component names stay unset |
| `DiagramNames.KeepIdChars` | dtsx_parser/diagram_generator.py:201 | the filter keeps only id characters and never grows |
| `DiagramNames.KeepIdCharsKeepsAll` | dtsx_parser/diagram_generator.py:201 | a string of id characters passes the filter unchanged |
| `DiagramNames.SanitizeId` | dtsx_parser/diagram_generator.py:197-202 | a node id holds only letters, digits and `_`, and is no longer than the name |
| `DiagramNames.SanitizeIdPointwise` | dtsx_parser/diagram_generator.py:200-201 | the three replacements map space, `-` and `.` to `_` character by character |
| `DiagramNames.SanitizeIdSeparators` | dtsx_parser/diagram_generator.py:197-202 | a name of id characters and separators keeps its length, with each separator turned into `_` |
| `DiagramNames.SanitizeIdIdempotent` | dtsx_parser/diagram_generator.py:197-202 | sanitizing an id changes nothing |
| `DiagramNames.SanitizeIdCollision` | dtsx_parser/diagram_generator.py:197-202 | names differing only in the separator share a node id |
| `DiagramNames.ExtractStageName` | dtsx_parser/diagram_generator.py:109-113 | the text after the last backslash, or the whole ref when it has none |
| `DiagramNames.StripVariableRefs` | dtsx_parser/diagram_generator.py:352 | the listing's condition has no `]` and is no longer than the expression |
| `DiagramNames.CleanLabel` | dtsx_parser/diagram_generator.py:48 | the edge label has no `]` and is no longer than the expression |
| `DiagramNames.ComponentPart` | dtsx_parser/diagram_generator.py:121-123 | the second-pass key has no backslash and no dot |
| `DiagramNames.FirstDirect` | dtsx_parser/diagram_generator.py:117-119 | the first component whose ref id or name occurs in the ref |
| `DiagramNames.FirstPart` | dtsx_parser/diagram_generator.py:124-126 | the first component whose name equals the key or whose ref id contains it |
| `DiagramNames.ExtractComponentName` | dtsx_parser/diagram_generator.py:115-127 | the result is absent or the name of a listed component |
| `DiagramNames.FirstDirectMatchWins` | dtsx_parser/diagram_generator.py:117-119 | the first direct match in list order decides |
| `DiagramNames.FirstPartMatchWins` | dtsx_parser/diagram_generator.py:120-126 | with no direct match and a backslash in the ref, the first segment match decides |
| `DiagramNames.ComponentNameNone` | dtsx_parser/diagram_generator.py:115-127 | nothing resolves exactly when no direct match exists and either the ref has one segment or no segment match exists |
| `DiagramNames.EmptyRefIdMatches` | dtsx_parser/diagram_generator.py:118 | a component with an empty ref id makes every ref resolve |
| `AsciiDiagrams.MaxNameLength` | dtsx_parser/diagram_generator.py:212 | the longest stage name, 0 for no stages |
| `AsciiDiagrams.BoxWidth` | dtsx_parser/diagram_generator.py:212-213 | the box width is the longest name plus 4, and 24 for no stages |
| `AsciiDiagrams.LongestName` | dtsx_parser/diagram_generator.py:212 | the loop computes the longest name |
| `AsciiDiagrams.AsciiControlFlow` | dtsx_parser/diagram_generator.py:204-235 | the renderer's lines are the control-flow drawing |
| `AsciiDiagrams.StageRowsShape` | dtsx_parser/diagram_generator.py:215-233 | a block is four box rows, plus an arrow before the next stage, with a `[cond]` row exactly when the next stage has a non-empty condition |
| `AsciiDiagrams.BoxRowsAligned` | dtsx_parser/diagram_generator.py:217-220 | every box row is as wide as its border |
| `AsciiDiagrams.RenderRowDistinct` | dtsx_parser/diagram_generator.py:217-232 | a border or arrow head renders unlike any other row |
| `AsciiDiagrams.RenderCount` | dtsx_parser/diagram_generator.py:217-232 | counting borders or heads in the text counts them in the rows |
| `AsciiDiagrams.StageRowsCounts` | dtsx_parser/diagram_generator.py:215-233 | two borders per block, and an arrow head in every block but the last |
| `AsciiDiagrams.StageLinesBorders` | dtsx_parser/diagram_generator.py:215-220 | `k` blocks hold `2k` borders |
| `AsciiDiagrams.StageLinesArrows` | dtsx_parser/diagram_generator.py:223-232 | every block before the last ends in an arrow |
| `AsciiDiagrams.LastBlockHasNoArrow` | dtsx_parser/diagram_generator.py:223 | the last block has no arrow |
| `AsciiDiagrams.AllStageLinesArrows` | dtsx_parser/diagram_generator.py:223-232 | `n` blocks hold `n - 1` arrows |
| `AsciiDiagrams.BannerCount` | dtsx_parser/diagram_generator.py:207-210 | the banner holds no indented row |
| `AsciiDiagrams.ArtBorders` | dtsx_parser/diagram_generator.py:204-235 | below a banner without borders, `n` stages give `2n` borders |
| `AsciiDiagrams.ArtArrows` | dtsx_parser/diagram_generator.py:204-235 | below a banner without heads, `n` stages give `n - 1` arrows |
| `AsciiDiagrams.ControlFlowArtCounts` | dtsx_parser/diagram_generator.py:204-235 | `n` stages are drawn as `n` boxes joined by `n - 1` arrows |
| `AsciiDiagrams.SqlPreview` | dtsx_parser/diagram_generator.py:257 | the SQL preview has at most 50 characters and no newline |
| `AsciiDiagrams.SymbolFirstMatch` | dtsx_parser/diagram_generator.py:267-281 | the symbol is that of the first matching class-name test |
| `AsciiDiagrams.SymbolFallback` | dtsx_parser/diagram_generator.py:280-281 | `{TRF}` is drawn exactly when no test matches |
| `AsciiDiagrams.FirstThree` | dtsx_parser/diagram_generator.py:287 | at most the first three columns |
| `AsciiDiagrams.TableOf` | dtsx_parser/diagram_generator.py:311 | the table name when non-empty, else `Unknown Table` |
| `AsciiDiagrams.EndpointName` | dtsx_parser/diagram_generator.py:320-321 | an endpoint is printed as a component name or `?`, and as `?` when it does not resolve |
| `AsciiDiagrams.PathListingLines` | dtsx_parser/diagram_generator.py:319-322 | one line per path, in order, whether or not its endpoints resolve |
| `AsciiDiagrams.UnresolvedEndpoint` | dtsx_parser/diagram_generator.py:320-322 | an unresolved source is printed as `?` |
| `AsciiDiagrams.ConditionLinesAll` | dtsx_parser/diagram_generator.py:292-297 | every conditional output the parser keeps gets a line |
| `AsciiDiagrams.ColumnPreviewShorter` | dtsx_parser/diagram_generator.py:287-289 | at most one preview line per column |
| `AsciiDiagrams.AtMostThreePreviews` | dtsx_parser/diagram_generator.py:286-289 | a transformation shows at most three column previews |
| `AsciiDiagrams.PreviewColumns` | dtsx_parser/diagram_generator.py:286-289 | the preview loop computes the preview lines |
| `AsciiDiagrams.ShowConditions` | dtsx_parser/diagram_generator.py:292-297 | the condition loop computes the condition lines |
| `AsciiDiagrams.DrawSource` | dtsx_parser/diagram_generator.py:254-258 | one source's lines |
| `AsciiDiagrams.DrawSources` | dtsx_parser/diagram_generator.py:251-261 | the sources section, absent without sources |
| `AsciiDiagrams.DrawTransform` | dtsx_parser/diagram_generator.py:267-301 | one transformation's lines, with an arrow unless it is the last |
| `AsciiDiagrams.DrawTransforms` | dtsx_parser/diagram_generator.py:264-305 | the transformations section, absent without transforms |
| `AsciiDiagrams.DrawDestinations` | dtsx_parser/diagram_generator.py:308-314 | the destinations section, absent without destinations |
| `AsciiDiagrams.DrawPaths` | dtsx_parser/diagram_generator.py:319-322 | the path summary loop |
| `AsciiDiagrams.AsciiDataFlow` | dtsx_parser/diagram_generator.py:237-324 | the renderer's lines are the data-flow drawing |
| `Diagrams.ControlFlowEdgeShape` | dtsx_parser/diagram_generator.py:44-49 | an edge's ends are backslash-free stage names, and its label has no `]` and is empty without an expression |
| `Diagrams.ControlFlowEdgesAt` | dtsx_parser/diagram_generator.py:43-49 | the `i`-th edge of the graph is drawn from the `i`-th raw constraint |
| `Diagrams.ControlFlowPaths` | dtsx_parser/diagram_generator.py:43-49 | one edge per raw constraint, in order |
| `Diagrams.DataFlowEdge` | dtsx_parser/diagram_generator.py:85-89 | a path becomes an edge exactly when both endpoint names are non-empty, labelled with the path name |
| `Diagrams.DataFlowEdgeNames` | dtsx_parser/diagram_generator.py:85-89 | both ends of an edge are component names |
| `Diagrams.DataFlowEdgesMembers` | dtsx_parser/diagram_generator.py:83-89 | an edge is in the graph exactly when some path yields it |
| `Diagrams.ResolvedEdgeKept` | dtsx_parser/diagram_generator.py:88-89 | the intended filter keeps a path exactly when both ends resolve, and agrees with the code's filter on every edge the code keeps |
| `Diagrams.UnnamedFirstComponentDropsAll` | dtsx_parser/diagram_generator.py:85-89 | with an unnamed first component the code drops every path while the intended filter keeps each one |
| `Diagrams.ResolvedEdgesMembers` | dtsx_parser/diagram_generator.py:83-89 | in the intended graph an edge is present exactly when some path's two ends resolve to its ends and the path's name is its label |
| `Diagrams.GraphDropsListingKeeps` | dtsx_parser/diagram_generator.py:83-89 | the graph never has more edges than paths, while the ASCII summary has one line per path |
| `Diagrams.AllResolvedAllKept` | dtsx_parser/diagram_generator.py:83-89 | when every endpoint resolves, every path becomes an edge, in order |
| `Diagrams.DataFlowPaths` | dtsx_parser/diagram_generator.py:83-89 | the path loop computes the graph's edges |
| `Diagrams.ComponentTypesLast` | dtsx_parser/diagram_generator.py:129-131 | a name is typed exactly when some component has it, with the type of the last such component |
| `Diagrams.ShapeOf` | dtsx_parser/diagram_generator.py:152-161 | Source is a cylinder, Destination a subroutine, a type containing `Transform` a diamond, and anything else a rectangle |
| `Diagrams.UntypedIsRectangle` | dtsx_parser/diagram_generator.py:152 | a component with no type entry is a rectangle |
| `Diagrams.NodeLines` | dtsx_parser/diagram_generator.py:150-161 | one node line per component |
| `Diagrams.EdgeLines` | dtsx_parser/diagram_generator.py:167-174 | one edge line per path |
| `Diagrams.EdgeLabelBar` | dtsx_parser/diagram_generator.py:171-174 | an edge line uses `-->\|label\|` exactly when the label is non-empty |
| `Diagrams.ClassLine` | dtsx_parser/diagram_generator.py:184-193 | a `class` line is emitted exactly for the three categories |
| `Diagrams.UntypedFlowchart` | dtsx_parser/diagram_generator.py:146-193 | without a type map every node is a rectangle and no `class` line is emitted |
| `Diagrams.FlowchartLayout` | dtsx_parser/diagram_generator.py:137-174 | node lines follow the five header lines, and edge lines follow the nodes and the subgraph end |
| `Diagrams.ShowNodes` | dtsx_parser/diagram_generator.py:150-161 | the node loop |
| `Diagrams.ShowEdges` | dtsx_parser/diagram_generator.py:167-174 | the edge loop |
| `Diagrams.ShowClasses` | dtsx_parser/diagram_generator.py:184-193 | the styling loop |
| `Diagrams.MermaidFlowchart` | dtsx_parser/diagram_generator.py:133-195 | the flowchart is its lines joined by newlines |
| `Diagrams.StageNames` | dtsx_parser/diagram_generator.py:39 | one node per stage, in order |
| `Diagrams.ComponentNodesTyped` | dtsx_parser/diagram_generator.py:70 | one node per component, in order, and every node has an entry in the type map that styles the flowchart |
| `Diagrams.GenerateControlFlowDiagram` | dtsx_parser/diagram_generator.py:37-66 | the control-flow diagram of the package |
| `Diagrams.GenerateDataFlowDiagram` | dtsx_parser/diagram_generator.py:68-107 | the data-flow diagram of a task |
| `Diagrams.GenerateDataFlowDiagrams` | dtsx_parser/diagram_generator.py:31-33 | one diagram per data-flow task, in order |
| `Diagrams.GenerateAllDiagrams` | dtsx_parser/diagram_generator.py:22-35 | the control-flow diagram first, then one diagram per task in order |
| `Diagrams.ControlFlowOneEdgePerConstraint` | dtsx_parser/diagram_generator.py:43-49 | the control-flow diagram has exactly one edge per raw constraint, labelled with the cleaned expression |
| `Listings.TaskLines` | dtsx_parser/diagram_generator.py:356-359 | one line per task |
| `Listings.StepListingPositional` | dtsx_parser/diagram_generator.py:345-362 | steps are numbered by list position, whatever the stages' `order` and precedence lists |
| `Listings.ExecutionOrderPositional` | dtsx_parser/diagram_generator.py:326-364 | the listing depends only on what it shows of each stage, in list order |
| `Listings.ConditionKeepsEquality` | dtsx_parser/diagram_generator.py:352 | the listing keeps `==`, where the edge label rewrites it |
| `Listings.ShowTasks` | dtsx_parser/diagram_generator.py:356-359 | the task loop |
| `Listings.ShowStep` | dtsx_parser/diagram_generator.py:347-361 | one step's block |
| `Listings.ExecutionOrderDiagram` | dtsx_parser/diagram_generator.py:326-364 | the listing is its lines joined by newlines |
| `Listings.DefaultRouteHidesExpressions` | dtsx_parser/diagram_generator.py:387-389 | a default route shows the default marker, whatever its expressions |
| `Listings.FriendlyPreferred` | dtsx_parser/diagram_generator.py:390-395 | a non-default route with a friendly expression shows it, whatever the raw one is |
| `Listings.RouteDestinations` | dtsx_parser/diagram_generator.py:398-404 | a destination is listed exactly for the paths whose source ref mentions the route and whose destination resolves |
| `Listings.LookupNoMatchUnreachable` | dtsx_parser/diagram_generator.py:421-424 | a lookup path is only ever shown as a match |
| `Listings.LookupLinesAllMatch` | dtsx_parser/diagram_generator.py:415-424 | every line a lookup prints about its paths is a "Match goes to" line |
| `Listings.NoMatchMentionsMatch` | dtsx_parser/diagram_generator.py:421-424 | both no-match spellings contain `Match`, so the first test catches them |
| `Listings.IntendedLookupNoMatch` | dtsx_parser/diagram_generator.py:421-424 | a resolved no-match path is a "No Match goes to" line when the no-match test comes first, and a "Match goes to" line as written |
| `Listings.IntendedLookupMatch` | dtsx_parser/diagram_generator.py:421-422 | a resolved path named only as a match is a "Match goes to" line in both orders |
| `Listings.IntendedLookupBothOutputs` | dtsx_parser/diagram_generator.py:415-424 | a lookup with one match and one no-match path lists one line of each kind in the intended order, and two match lines as written |
| `Listings.MulticastDestinations` | dtsx_parser/diagram_generator.py:433-439 | a multicast destination is listed exactly for the paths whose source ref mentions the component and whose destination resolves |
| `Listings.MulticastOutgoingMembers` | dtsx_parser/diagram_generator.py:433-434 | a path is outgoing exactly when it is one of the task's paths and its source ref mentions the multicast |
| `Listings.MulticastListsResolvedOutgoing` | dtsx_parser/diagram_generator.py:433-439 | the multicast listing has at most one line per outgoing path, and one for each exactly when every outgoing destination resolves |
| `Listings.PlainComponentSilent` | dtsx_parser/diagram_generator.py:380-441 | a component with no conditional outputs, no `Lookup` and no `Multicast` adds nothing |
| `Listings.RouteTargets` | dtsx_parser/diagram_generator.py:398-404 | the destination loop of a route |
| `Listings.LookupTargets` | dtsx_parser/diagram_generator.py:415-424 | the destination loop of a lookup |
| `Listings.MulticastTargets` | dtsx_parser/diagram_generator.py:433-439 | the destination loop of a multicast |
| `Listings.ShowRoutes` | dtsx_parser/diagram_generator.py:386-406 | the routes, numbered from 1 |
| `Listings.RouteSplit` | dtsx_parser/diagram_generator.py:381-406 | the section of a component with conditional outputs |
| `Listings.RouteLookup` | dtsx_parser/diagram_generator.py:409-426 | the lookup section |
| `Listings.RouteMulticast` | dtsx_parser/diagram_generator.py:429-441 | the multicast section |
| `Listings.RouteComponent` | dtsx_parser/diagram_generator.py:380-441 | one component's three sections in order |
| `Listings.RouteComponents` | dtsx_parser/diagram_generator.py:380-441 | the component loop of one task |
| `Listings.RouteTask` | dtsx_parser/diagram_generator.py:374-443 | one task's block |
| `Listings.RoutingLogicDiagram` | dtsx_parser/diagram_generator.py:366-445 | the listing is its lines joined by newlines |
| `Reports.ReportFor` | dtsx_parser/report_generator.py:31-38 | `json` and `markdown` select their reports, and every other name selects the text report |
| `Reports.ExtractNames` | dtsx_parser/report_generator.py:716-722 | one name per ref, in order, each the text after the last backslash |
| `Reports.ExtractComponentShort` | dtsx_parser/report_generator.py:724-729 | a ref without a backslash is returned whole; otherwise the last segment's prefix before its first `.` |
| `Reports.ShortIsResolverPart` | dtsx_parser/report_generator.py:724-729 | the short name is the key of the resolver's second pass |
| `Reports.ExtractComponentShortIdempotent` | dtsx_parser/report_generator.py:724-729 | shortening a short name changes nothing |
| `Reports.ShortDependsOnSegments` | dtsx_parser/report_generator.py:726-729 | a dot survives in a single-segment ref and is cut behind a backslash |
| `Reports.ComponentPartition` | dtsx_parser/report_generator.py:386-393 | when every type is one of the three kinds, the three groups together hold each component as often as the task does, and their counts add up |
| `Reports.PartitionBy` | dtsx_parser/report_generator.py:386-393 | filtering by three distinct types that cover every component splits the list into three parts with the same elements |
| `Reports.OfTypeCount` | dtsx_parser/report_generator.py:386-393 | a type's group holds every copy of a component of that type and no component of another type |
| `Reports.ClassifiedPartition` | dtsx_parser/parser.py:529-534 | components classified by the parser always form such a partition |
| `Reports.TextRouteLine` | dtsx_parser/report_generator.py:429-434 | the text report shows `DEFAULT (unmatched rows)` for a default route and otherwise prefers the friendly expression |
| `Reports.MarkdownRouteLine` | dtsx_parser/report_generator.py:169-172 | the Markdown report shows `Default (unmatched rows)` for a default route and otherwise prefers the raw expression |
| `Reports.RouteExpressionPreference` | dtsx_parser/report_generator.py:429-434 | with both expressions present, the text report shows the friendly one and the Markdown report the raw one |
| `Reports.MissingExpressionShowsNone` | dtsx_parser/report_generator.py:433-434 | a non-default route with neither expression is shown as `None` |
| `Reports.ExtensionFor` | dtsx_parser/report_generator.py:735-743 | `.md` for markdown, `.json` for json, and `.txt` for text or any unknown format |
| `Reports.ExtensionMatchesReport` | dtsx_parser/report_generator.py:31-38 | the extension chosen always belongs to the report written |
| `Reports.Suffix` | dtsx_parser/report_generator.py:742 | a suffix starts at the name's last dot, is at least two characters long, and is a proper ending of the name |
| `Reports.SaveTarget` | dtsx_parser/report_generator.py:741-743 | a path whose name has a suffix is kept; otherwise the format's extension is appended; an empty name raises |
| `Reports.AppendedExtensionIsSuffix` | dtsx_parser/report_generator.py:742-743 | the appended extension becomes the suffix of the name written |
| `Reports.SaveTargetStable` | dtsx_parser/report_generator.py:741-743 | a chosen target is kept the next time, whatever the format |
| `Reports.MismatchedSuffixKept` | dtsx_parser/report_generator.py:742 | a JSON report can be written to a `.md` file |
| `Reports.SuffixedNameKept` | dtsx_parser/report_generator.py:741-742 | a name with a suffix is written under that name, whatever the format |
| `Reports.HiddenNameGetsExtension` | dtsx_parser/report_generator.py:742-743 | a leading dot is not a suffix, so `.env` is saved as `.env.txt` for the text report |

## Left out

- XML parsing and file reading (`ET.parse`, `getroot`, namespace registration): an element is an abstract tree value, and `iter()` is a pre-order walk.
- `parse()` assembly, metadata, annotations, connection managers, data-flow task discovery (`_parse_data_flow_tasks`, `_parse_data_flow_task`), event handlers and the error-handling walk: these are walkers over the same tree. The model covers the extraction rules they reuse, not their own loops. The strategy's record and its defaults are modelled (`Models.NewErrorHandling`).
- `_extract_database_objects` and `_extract_alerts`: both read the package before `parse()` has stored it, so on a first parse they return empty lists. Their regular-expression mining is not modelled.
- Failure of `int(...)` on non-numeric text: the members that convert text carry a precondition that the text is an optional sign followed by ASCII digits. These are `Variables.TypeCode`, `Parser.ParsePrecedenceConstraint`, `Components.ParseDataFlowComponent` and the walkers above them. The precondition is narrower than what `int()` accepts: text with surrounding whitespace (`" 8"`, `"8\n"`), `_` digit separators (`"1_000"`) or non-ASCII Unicode digits converts in Python but is outside the model.
- Python's Unicode `str.isalnum`, `str.lower`, `str.strip` and `re.IGNORECASE` are modelled on ASCII. `Text.Strip` removes only ASCII whitespace, while Python's `strip()` also removes characters such as `\x85`, `\xa0` and `\u2028`; a SQL text that starts or ends with them gives a different `AsciiDiagrams.SqlPreview`.
- Components.CondStep: Python's local `is_default` holds `None` when no `IsDefaultOut` property is present and `''` when its text is empty, where the model stores `false`. Only its truthiness is read afterwards, so the outputs built are the same.
- `ControlFlowStage` is a datatype value stored in an array that the linker updates in place. The ref map holds array indices, so two refs that name the same stage update the same slot. Identity of stage objects beyond that array is not modelled.
- Report bodies: the JSON, Markdown and text sections, timestamps and column padding are presentation and are not modelled. Only the pure decisions listed above are. `save_all_formats` and all file writing are I/O.
- `str.center` in the ASCII boxes is modelled through its width; the exact left/right split of odd padding follows Python's rule in `Text.Center`.
- The dead lookup table `comp_lookup` in `generate_data_flow_diagram` and the unused `start_stages` in the execution-order listing have no effect on output and are not modelled.
- Reports.SaveTarget: takes the path text as `pathlib` would normalise it (no trailing `/`, no empty or `.` segments). It follows the `PurePath.suffix` rule of Python 3.12 and earlier, where a trailing dot is no suffix. The directory part of the written path is not normalised.
- Reports.ExtractNames: the `else ref` fallback of `_extract_names` is unreachable, because `str.split` never returns an empty list, so it is not modelled.
