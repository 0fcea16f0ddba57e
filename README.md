# WebWhisperer core in Dafny

WebWhisperer builds a table transformation step by step from a dialogue. The user types a
dot-separated query such as `SortBy.Name.Ascending`. The service splits the query into tokens
and hands them to the query agent. The query agent runs one round per transformation:

- it asks the communication agent to choose a transformation from the catalog;
- it then asks for a column, an argument and, for FilterBy, a free-text literal.

While tokens remain, each answer is the user's own token: its index in the choice list, or the
token itself for free text. Once the tokens run out, the chatbot is asked once, and its reply is
only a suggestion. A round is committed when a transformation is built and tokens are left over.
Each committed transformation also gives the look-ahead schema (Preprocess) that the next round
offers its choices from.

The transformations work on a columnar table: a list of fields, each a header and a column of
cells. A CSV parser reads records into such a table, inferring column types from the first
record. It writes tables back as records.

The model has one module per part of the system:

- `Wrappers`: Option, Result and the two exception families (ArgumentException,
  NotImplementedException).
- `Text`: Int32.ToString, Int32.TryParse (modelled concretely, white space, sign and 32-bit
  range included) and string.Join.
- `StaticNames`: the names of the transformations and of their arguments.
- `DataTypes`: headers, cells, fields, the enumerations and the type-dependent cell
  comparison. The culture-dependent services are the uninterpreted functions of a `Runtime`
  value: bool, DateTime and double parsing, string.Compare, and the Sum/Mean aggregates. Every
  property holds for every choice of those functions.
- `ListExtensions`: GetIndexes, SortAndGetIndexes and ReArrangeAndSelectByIndex.
- `Transformations`: the factory (Create, CreateByIndex, BuildTransformation), the flags and
  vocabularies of the five variants, and Preprocess.
- `TableTransformations`: PerformTransformation of each variant and Transformator, with FilterBy
  in its corrected form (see Findings).
- `TransformationProperties` and `GroupByProperties`: what the transformations promise.
- `FilterByDeferred`: FilterBy as the repository writes it (see Findings).
- `Communication`: the CommunicationAgent class. It keeps a chat log; the chatbot is a function
  from the chat log to its reply, and a ghost counter counts the replies asked of it. The
  console is the sequence of lines it reads.
- `Query`: the QueryAgent class. PerformQuerying is a loop of rounds; each round is a method
  that returns how the C# loop body ends (break, continue, normal end or a caught exception).
- `CsvParser`: ingestion, with type inference from the first record; egress through the
  `rowEmpty` loop.
- `Whisper`: the WhisperService class. It holds query splitting, the move of the bot suggestion
  to the front, and the table rendering.

Two behaviours are modelled twice, once as the code writes them and once corrected:

- The CSV writer's row loop carries the comment "until not all lines empty"
  (WebWhisperer/IterativePromptCore/Parser/CsvParser.cs:133 and :174), which the corrected
  writer `CsvParser.WriteFieldsIntoCsv` follows. The code as written stops as soon as the last
  field has no cell; `CsvParser.ParseFieldsIntoCsv` is that behaviour, and the Findings table
  has the consequence.
- FilterBy as written is `FilterByDeferred.FilterByAsWritten`. The pipeline
  (`TableTransformations.TransformationResult` and everything built on it) runs the corrected
  `TableTransformations.FilterByResult`; the Findings table has the difference.

## Model

| member | source | states |
|---|---|---|
| Text.ParseInt | WebWhisperer/IterativePromptCore/Types/Types.cs:109-110 | Int32.TryParse: a parsed value always lies in the 32-bit range |
| Text.ParseIntOfIntToString | WebWhisperer/IterativePromptCore/Query/QueryAgent.cs:140-157 | an index formatted by ToString parses back to the same index, so an echoed index is read back as itself |
| Text.Join | WebWhisperer/IterativePromptCore/Query/QueryAgent.cs:97 | string.Join: nothing for no parts, the part itself for one part |
| DataTypes.CompareTo_TypeDependent | WebWhisperer/IterativePromptCore/Types/Types.cs:156-235 | -1 against null; Bool, Number and Date give only -1, 0 or 1; String gives the culture comparison |
| DataTypes.UnparsedRanksLast | WebWhisperer/IterativePromptCore/Types/Types.cs:163-231 | for typed columns, an unparsed left side compares as 1, and a parsed left side against an unparsed right side compares as -1 |
| DataTypes.UnparsedPairNotAntisymmetric | WebWhisperer/IterativePromptCore/Types/Types.cs:189-208 | two unparsed values each compare as 1 against the other, so the comparison is no order on them |
| DataTypes.NumberFollowsIntegerOrder | WebWhisperer/IterativePromptCore/Types/Types.cs:189-208 | Number cells that both parse compare as the integers compare: -1, 0, 1 exactly for less, equal, greater |
| DataTypes.BoolRule | WebWhisperer/IterativePromptCore/Types/Types.cs:167-177 | false before true, true after false, equal values tie |
| DataTypes.AntisymmetricWhenParsed | WebWhisperer/IterativePromptCore/Types/Types.cs:156-235 | when both sides parse, swapping the sides negates the result |
| ListExtensions.SortCells | WebWhisperer/IterativePromptCore/Types/Transformations.cs:37-41 | the sort is a permutation of the column |
| ListExtensions.SortCellsOrdered | WebWhisperer/IterativePromptCore/Types/Transformations.cs:37-41 | when any two cells are comparable one way round, the sorted column is ordered by the comparer |
| ListExtensions.ParsedCellsComparable | WebWhisperer/IterativePromptCore/Types/Transformations.cs:37-41 | for Bool, Number and Date, cells that all parse are comparable, ascending and descending |
| ListExtensions.SortAndGetIndexes | WebWhisperer/IterativePromptCore/Types/Transformations.cs:33-48 | the sorted field keeps its header and its cells, and the positions returned are the sorted cells' Index values |
| ListExtensions.SelectRows | WebWhisperer/IterativePromptCore/Types/Transformations.cs:57-80 | fields are processed in order; the whole re-slice succeeds exactly when every non-ignored field accepts the positions |
| ListExtensions.SelectRowsReindexes | WebWhisperer/IterativePromptCore/Types/Transformations.cs:74-77 | after a re-slice, every field is numbered 0..len-1 and the re-sliced fields hold one cell per position |
| ListExtensions.ReArrangeAndSelectByIndex | WebWhisperer/IterativePromptCore/Types/Transformations.cs:57-80 | the loop over the fields computes SelectRows |
| ListExtensions.PickCells | WebWhisperer/IterativePromptCore/Types/Transformations.cs:63-71 | the copying loop yields Pick of the positions exactly when every position lies inside the field |
| ListExtensions.ReindexCells | WebWhisperer/IterativePromptCore/Types/Transformations.cs:74-77 | the default indexing loop yields Reindexed: same contents, each cell numbered by its position |
| Transformations.Create | WebWhisperer/IterativePromptCore/Types/Transformations.cs:91-108 | a failed creation is the ArgumentException "Unknown transformation" |
| Transformations.CreateByIndex | WebWhisperer/IterativePromptCore/Types/Transformations.cs:110-127 | a failed creation is the ArgumentException "Unknown transformation" |
| Transformations.CreateByIndexCatalog | WebWhisperer/IterativePromptCore/Types/Transformations.cs:110-127 | CreateByIndex succeeds exactly on 0..4 and yields the catalog entry, inverting IndexOf |
| Transformations.CreateInvertsName | WebWhisperer/IterativePromptCore/Types/Transformations.cs:91-108 | Create succeeds exactly on the names GetTransformationName gives, and inverts it |
| Transformations.CatalogIndexes | WebWhisperer/IterativePromptCore/Query/QueryAgent.cs:15-22 | each variant is listed once, at the position IndexOf gives it |
| Transformations.StepsAreStages | WebWhisperer/IterativePromptCore/Types/Transformations.cs:319-323 | TotalStepsNeeded is one step per stage PerformQuerying runs: column (not for Empty), argument (HasArguments), free text (only after arguments) |
| Transformations.BuildTransformation | WebWhisperer/IterativePromptCore/Types/Transformations.cs:137-247 | a successful build has the type the name (or index string) selects |
| Transformations.BuilderTypeOfIndexString | WebWhisperer/IterativePromptCore/Types/Transformations.cs:137-247 | the index strings "0".."4" select the same variant as the catalog names |
| Transformations.BuildTransformationFails | WebWhisperer/IterativePromptCore/Types/Transformations.cs:137-247 | the build throws exactly on an unknown name, too few arguments (1, 2, 3, 3) or an unrecognised direction, aggregation or relation |
| Transformations.BuildTransformationParameters | WebWhisperer/IterativePromptCore/Types/Transformations.cs:145-241 | the parameters of a built transformation: the non-empty drop names; column and direction; target, aggregation and groups args[2..]; column, relation and literal |
| Transformations.VocabularyIsRecognised | WebWhisperer/IterativePromptCore/Types/Transformations.cs:165-240 | every argument GetArgumentAt offers parses as the direction, aggregation or relation of that name |
| Transformations.Preprocess | WebWhisperer/IterativePromptCore/Types/Transformations.cs:330-726 | Empty, SortBy and FilterBy keep the schema; Preprocess fails with "Unknown Agregation" exactly for GroupBy with GroupKey |
| Transformations.DropSchemaKeeps | WebWhisperer/IterativePromptCore/Types/Transformations.cs:379-386 | the look-ahead schema of DropColumn keeps exactly the columns not in the drop set |
| Transformations.DropFieldsKeeps | WebWhisperer/IterativePromptCore/Types/Transformations.cs:370-377 | DropColumn keeps exactly the fields not in the drop set |
| Transformations.DropSchemaAppend | WebWhisperer/IterativePromptCore/Types/Transformations.cs:379-386 | dropping distributes over concatenation, so kept columns stay in their order |
| Transformations.DropSchemaOfFields | WebWhisperer/IterativePromptCore/Types/Transformations.cs:370-386 | DropColumn's Preprocess predicts the schema its PerformTransformation leaves |
| Transformations.DropSchemaNothing | WebWhisperer/IterativePromptCore/Types/Transformations.cs:379-386 | an empty drop set leaves the look-ahead schema as it is |
| Transformations.DropFieldsNothing | WebWhisperer/IterativePromptCore/Types/Transformations.cs:370-377 | an empty drop set leaves the table as it is |
| TableTransformations.FirstIndexOf | WebWhisperer/IterativePromptCore/Types/Transformations.cs:437 | the first field with the name, or none when no field has it |
| TableTransformations.FilterCells | WebWhisperer/IterativePromptCore/Types/Transformations.cs:695-707 | the filter never keeps more cells than it is given |
| TableTransformations.BuildKeyColumn | WebWhisperer/IterativePromptCore/Types/Transformations.cs:545-553 | the key loop yields one cell per key, in key order, numbered from 0 |
| TableTransformations.PerformGroupBy | WebWhisperer/IterativePromptCore/Types/Transformations.cs:519-606 | GroupBy's loops over fields and groups compute GroupByResult |
| TableTransformations.AggregateGroups | WebWhisperer/IterativePromptCore/Types/Transformations.cs:557-600 | the aggregation loop over the groups of one field computes AggregateColumn |
| TableTransformations.PerformTransformation | WebWhisperer/IterativePromptCore/Types/Transformations.cs:325-721 | each variant's PerformTransformation computes its specification function |
| TableTransformations.TransformFields | WebWhisperer/IterativePromptCore/Types/Transformations.cs:758-767 | the left-to-right fold; no transformation leaves the table as it is |
| TransformationProperties.FilterSelectsRows | WebWhisperer/IterativePromptCore/Types/Transformations.cs:694-708 | over a column numbered by position, the filter keeps in row order exactly the cells the predicate holds of |
| TransformationProperties.FilterComplement | WebWhisperer/IterativePromptCore/Types/Transformations.cs:694-700 | the cells kept by a filter and by its complement add up to the whole column |
| TransformationProperties.SelectRowsRectangular | WebWhisperer/IterativePromptCore/Types/Transformations.cs:57-80 | re-slicing a rectangular table by in-range positions gives a rectangular table whose row j is input row indexes[j] |
| TransformationProperties.SortedColumnOrigins | WebWhisperer/IterativePromptCore/Types/Transformations.cs:33-48 | the sorted positions form a permutation and name the row each sorted cell came from |
| TransformationProperties.SortByRowPermutation | WebWhisperer/IterativePromptCore/Types/Transformations.cs:435-448 | SortBy keeps a rectangular table with its headers, and its rows are the input rows under one permutation for every column |
| TransformationProperties.SortByOrdersColumn | WebWhisperer/IterativePromptCore/Types/Transformations.cs:435-448 | when every cell of a typed column parses, SortBy leaves the column ordered (ascending, or descending with the sides swapped) |
| TransformationProperties.MissingColumnThrows | WebWhisperer/IterativePromptCore/Types/Transformations.cs:446 | SortBy, FilterBy and GroupBy throw ArgumentException when no column has the name |
| TransformationProperties.FilterByRows | WebWhisperer/IterativePromptCore/Types/Transformations.cs:687-721 | the corrected FilterBy gives one row per matching source cell, in row order, row j being the j-th match's row in every column; InRange throws NotImplementedException |
| TransformationProperties.EqualsNotEqualsSplitRows | WebWhisperer/IterativePromptCore/Types/Transformations.cs:694-701 | the corrected FilterBy: Equals and NotEquals with the same literal split the rows between them, so their row counts add up to the table's |
| TransformationProperties.EqualsLeavesOnlyMatches | WebWhisperer/IterativePromptCore/Types/Transformations.cs:694-697 | the corrected FilterBy: after Equals, every cell of the filtered column compares equal to the literal |
| TransformationProperties.FilterWithoutMatchesEmpties | WebWhisperer/IterativePromptCore/Types/Transformations.cs:687-721 | the corrected FilterBy: a filter no row satisfies empties every column and keeps the headers |
| TransformationProperties.EqualsThenNotEqualsIsEmpty | WebWhisperer/IterativePromptCore/Types/Transformations.cs:694-701 | the corrected FilterBy: Equals succeeds, and NotEquals on its result, with the same column and literal, succeeds with every column empty |
| TransformationProperties.PipelineOfTwo | WebWhisperer/IterativePromptCore/Types/Transformations.cs:758-767 | a two-step pipeline is the second transformation applied to the first one's result |
| TransformationProperties.PipelineAppend | WebWhisperer/IterativePromptCore/Types/Transformations.cs:758-767 | running a + b is running a and then b; the first exception stops both |
| TransformationProperties.PreprocessPredictsSchema | WebWhisperer/IterativePromptCore/Types/Transformations.cs:330-726 | for every variant but GroupBy, Preprocess gives exactly the schema of the table the transformation produces |
| GroupByProperties.GroupKeysCover | WebWhisperer/IterativePromptCore/Types/Transformations.cs:526-528 | the keys are distinct, every content is a key and every key is some content |
| GroupByProperties.GroupKeysFirstSeen | WebWhisperer/IterativePromptCore/Types/Transformations.cs:526-528 | the keys come in the order of their first occurrence |
| GroupByProperties.GroupSizesCoverRows | WebWhisperer/IterativePromptCore/Types/Transformations.cs:526-528 | the group sizes add up to the number of rows |
| GroupByProperties.GroupsPartitionRows | WebWhisperer/IterativePromptCore/Types/Transformations.cs:526-528 | each group lists in row order exactly the rows holding its key, no group is empty, and the sizes sum to the row count |
| GroupByProperties.GroupByShape | WebWhisperer/IterativePromptCore/Types/Transformations.cs:519-606 | GroupBy keeps the headers, turns the target into the keys and every other column into one aggregate per key |
| GroupByProperties.GroupKeyThrows | WebWhisperer/IterativePromptCore/Types/Transformations.cs:597-598 | with GroupKey, NotImplementedException as soon as a non-target column has a group |
| GroupByProperties.CountAllSumsToRows | WebWhisperer/IterativePromptCore/Types/Transformations.cs:565-568 | with CountAll, the counts in a non-target column add up to the row count |
| GroupByProperties.CountDistinctAtMostCountAll | WebWhisperer/IterativePromptCore/Types/Transformations.cs:565-573 | CountDistinct is at least 1 on a non-empty group and never exceeds CountAll |
| GroupByProperties.GroupByKeepsHeaders | WebWhisperer/IterativePromptCore/Types/Transformations.cs:519-606 | a successful GroupBy keeps every header |
| GroupByProperties.GroupByPreprocessDiverges | WebWhisperer/IterativePromptCore/Types/Transformations.cs:608-635 | GroupBy's look-ahead schema is not the schema of its result: Preprocess retypes or drops while the table keeps its headers |
| FilterByDeferred.SplitSelect | WebWhisperer/IterativePromptCore/Types/Transformations.cs:57-80 | the deferred query re-evaluated per column: the re-slice succeeds exactly when each column accepts the positions it sees then |
| FilterByDeferred.AsWrittenAgreesUpToSource | WebWhisperer/IterativePromptCore/Types/Transformations.cs:687-721 | as written, FilterBy agrees with the intended result on the columns up to the filtered one |
| FilterByDeferred.AsWrittenTakesLeadingRows | WebWhisperer/IterativePromptCore/Types/Transformations.cs:687-721 | as written, every column after the filtered one takes its first k rows, k being the number of matches |
| FilterByDeferred.AsWrittenShape | WebWhisperer/IterativePromptCore/Types/Transformations.cs:687-721 | as written, FilterBy succeeds on every column name it finds (InRange aside), keeps every header, gives each column as many cells as the corrected FilterBy, numbered by position |
| FilterByDeferred.AsWrittenEqualsNotEqualsSplitRows | WebWhisperer/IterativePromptCore/Types/Transformations.cs:694-701 | as written, Equals and NotEquals with the same literal still give every column row counts adding up to the table's |
| FilterByDeferred.AsWrittenWithoutMatchesEmpties | WebWhisperer/IterativePromptCore/Types/Transformations.cs:687-721 | as written, a filter no row satisfies empties every column and keeps the headers |
| FilterByDeferred.AsWrittenEqualsLeavesOnlyMatches | WebWhisperer/IterativePromptCore/Types/Transformations.cs:694-697 | as written, after Equals the filtered column is found at the same place, keeps its header, the table stays rectangular, and every cell of that column compares equal to the literal |
| FilterByDeferred.AsWrittenEqualsThenNotEqualsIsEmpty | WebWhisperer/IterativePromptCore/Types/Transformations.cs:694-701 | as written, Equals succeeds, and NotEquals on its result with the same column and literal succeeds with every column empty |
| FilterByDeferred.AsWrittenMisalignsRows | WebWhisperer/IterativePromptCore/Types/Transformations.cs:694-697 | Alice 30 and Bob 25 filtered by Name == Bob give Bob aged 30 |
| FilterByDeferred.IntendedKeepsRowsAligned | WebWhisperer/IterativePromptCore/Types/Transformations.cs:694-697 | the corrected FilterBy gives Bob aged 25 |
| Communication.ChoiceLinesPrefix | WebWhisperer/IterativePromptCore/Communication/CommunicationAgent.cs:179-186 | listing a prefix of the choices gives a prefix of the listing |
| Communication.ChoiceListed | WebWhisperer/IterativePromptCore/Communication/CommunicationAgent.cs:174-188 | every choice appears, in order, on a line "> [i] choice" numbered with its position |
| Communication.CommunicationAgent.WithApi | WebWhisperer/IterativePromptCore/Communication/CommunicationAgent.cs:128-137 | AIBot mode with an API, an empty chat and no pending question |
| Communication.CommunicationAgent.WithConsole | WebWhisperer/IterativePromptCore/Communication/CommunicationAgent.cs:139-143 | User mode without an API |
| Communication.CommunicationAgent.FlushCurrentChat | WebWhisperer/IterativePromptCore/Communication/CommunicationAgent.cs:103-117 | with an API, the chat becomes the introduction messages; without one, nothing changes |
| Communication.CommunicationAgent.AddUserQuery | WebWhisperer/IterativePromptCore/Communication/CommunicationAgent.cs:84-101 | a new chat, then the query, or the next console line when the query is missing or empty |
| Communication.CommunicationAgent.InsertSystemMessage | WebWhisperer/IterativePromptCore/Communication/CommunicationAgent.cs:147-156 | the message is appended in bot modes and returned unchanged |
| Communication.CommunicationAgent.InsertUserMessage | WebWhisperer/IterativePromptCore/Communication/CommunicationAgent.cs:158-169 | the message is appended in bot modes and returned unchanged |
| Communication.CommunicationAgent.CreateNextQuestion | WebWhisperer/IterativePromptCore/Communication/CommunicationAgent.cs:171-191 | in bot modes the pending question is the question, the numbered choices and an empty line; the choices are returned unchanged |
| Communication.CommunicationAgent.AppendChoices | WebWhisperer/IterativePromptCore/Communication/CommunicationAgent.cs:179-186 | the pending question grows by one numbered line per choice, in order |
| Communication.CommunicationAgent.ErrorMessage | WebWhisperer/IterativePromptCore/Communication/CommunicationAgent.cs:193-202 | in bot modes "ERROR: " + message is appended; the message is returned |
| Communication.CommunicationAgent.Indent | WebWhisperer/IterativePromptCore/Communication/CommunicationAgent.cs:297-307 | in bot modes an empty user message is appended |
| Communication.CommunicationAgent.GetResponse | WebWhisperer/IterativePromptCore/Communication/CommunicationAgent.cs:204-281 | User mode returns the next console line, or "" at the end of the input; with a next move, the echo (the move or its index) is logged after the question and returned; without one, the chat gains its three or four messages and the chatbot's reply to it is returned, one request counted |
| Query.Position | WebWhisperer/IterativePromptCore/Query/QueryAgent.cs:129 | a position in the list, or -1 |
| Query.PositionIsFirst | WebWhisperer/IterativePromptCore/Query/QueryAgent.cs:129 | -1 exactly for an absent item; otherwise the item's first position |
| Query.EchoResolves | WebWhisperer/IterativePromptCore/Query/QueryAgent.cs:128-157 | a token echoed as its index passes the stage check and denotes its first position, or -1 when it is not listed |
| Query.BuilderAgreesWithIndex | WebWhisperer/IterativePromptCore/Query/QueryAgent.cs:295-297 | a numeric builder name selects the catalog entry of that index |
| Query.IndexNameBuildsSame | WebWhisperer/IterativePromptCore/Query/QueryAgent.cs:295-297 | building from the index string and from the catalog name gives the same transformation |
| Query.SpelledTransformation | WebWhisperer/IterativePromptCore/Query/QueryAgent.cs:165-297 | a listed column, a vocabulary argument and a free text build the variant with exactly those parameters |
| Query.ReadCatalogAnswer | WebWhisperer/IterativePromptCore/Query/QueryAgent.cs:136-160 | the catalog answer stops on "" or 0, is rejected (with its message) exactly when it is not an integer or not below the catalog size, throws the unknown-transformation ArgumentException for a negative index, and otherwise picks the variant whose index it is |
| Query.EchoedCatalogAnswer | WebWhisperer/IterativePromptCore/Query/QueryAgent.cs:128-160 | a token echoed as its catalog index is never rejected; it ends the query exactly when it is "Empty", throws exactly when it is no catalog name, and otherwise picks the variant of that name |
| Query.SpelledNamePicks | WebWhisperer/IterativePromptCore/Query/QueryAgent.cs:128-160 | the name token of a spelled query is echoed as its variant's index, which the catalog answer picks |
| Query.ArgumentOutcome | WebWhisperer/IterativePromptCore/Query/QueryAgent.cs:232-257 | an answer failing the stage check (empty, not an Int32, not below the vocabulary size) gives no outcome; a passing negative index raises the ArgumentException of GetArgumentAt; any other passing index chooses that vocabulary entry |
| Query.EchoedArgument | WebWhisperer/IterativePromptCore/Query/QueryAgent.cs:225-241 | a token echoed as its vocabulary index is chosen when it is in the vocabulary; otherwise GetArgumentAt(-1) raises |
| Query.QueryAgent.constructor | WebWhisperer/IterativePromptCore/Query/QueryAgent.cs:47-71 | the agent talks through the given communication agent, starting from the table's schema |
| Query.QueryAgent.AddUserQuery | WebWhisperer/IterativePromptCore/Query/QueryAgent.cs:73-77 | forwarded: a new chat holding the user's query |
| Query.QueryAgent.StartNewQueryAttempt | WebWhisperer/IterativePromptCore/Query/QueryAgent.cs:79-83 | forwarded: a new chat |
| Query.QueryAgent.Ask | WebWhisperer/IterativePromptCore/Query/QueryAgent.cs:172-179 | one token is consumed; in bot mode with a next token the answer is that token (free text) or its index in the list; a chatbot request is counted exactly when no usable token is left |
| Query.QueryAgent.Pose | WebWhisperer/IterativePromptCore/Communication/CommunicationAgent.cs:171-191 | posing a question returns the choices it was given and leaves the chat, the request count and the user query alone |
| Query.QueryAgent.Answer | WebWhisperer/IterativePromptCore/Query/QueryAgent.cs:174-207 | one answer: the offered list becomes the next moves and the answer a suggestion, and it is checked by ChoiceOf; in bot mode with a non-empty next token the answer is that token's index, which passes the check, and is -1 exactly when the token is not listed; a chatbot request exactly when no usable token is left |
| Query.QueryAgent.ColumnAttempt | WebWhisperer/IterativePromptCore/Query/QueryAgent.cs:165-208 | the offered list is the header names; a failing stage check gives no outcome, a passing negative index raises the out-of-range ArgumentException, any other index chooses that column; in bot mode with a non-empty next token, that token is chosen when it is a header name and otherwise the exception is raised |
| Query.QueryAgent.ArgumentAttempt | WebWhisperer/IterativePromptCore/Query/QueryAgent.cs:220-257 | the offered list is the vocabulary and the outcome is ArgumentOutcome of the answer; in bot mode with a non-empty next token the answer is that token's index in the vocabulary |
| Query.QueryAgent.RunStages | WebWhisperer/IterativePromptCore/Query/QueryAgent.cs:165-292 | the stages consume tokens in order and raise only ArgumentExceptions; with no error and tokens left at least TotalStepsNeeded answers were given, and with exactly that many in bot mode the arguments are the stage tokens; in bot mode a listed column, a vocabulary argument and enough tokens finish the stages without error in exactly TotalStepsNeeded steps |
| Query.QueryAgent.ColumnStage | WebWhisperer/IterativePromptCore/Query/QueryAgent.cs:165-209 | the column loop consumes tokens in order and runs out only when none is left; a chosen column is an offered header name, a raised error is the out-of-range ArgumentException; in bot mode with a next token there is exactly one attempt, which chooses the token when it is listed and raises otherwise |
| Query.QueryAgent.ArgumentStage | WebWhisperer/IterativePromptCore/Query/QueryAgent.cs:211-258 | the argument loop: a raised error is an ArgumentException and a chosen argument is in the vocabulary; in bot mode with a next token there is exactly one attempt, which chooses the token when it is listed and otherwise raises the exception of GetArgumentAt(-1) |
| Query.QueryAgent.FreeTextAttempt | WebWhisperer/IterativePromptCore/Query/QueryAgent.cs:265-291 | one free-text attempt consumes one token; the outcome is the answer exactly when it is non-empty, and in bot mode with a non-empty next token it is that token; the chatbot is asked only when no usable token is left |
| Query.QueryAgent.LaterStages | WebWhisperer/IterativePromptCore/Query/QueryAgent.cs:211-292 | no step exactly when there is no token or the variant has no arguments, and then nothing is raised; errors are ArgumentExceptions; with no error and tokens left at least the needed answers were given, and with exactly that many in bot mode they are the next tokens; in bot mode a vocabulary token with enough tokens after it finishes both stages without error in exactly the needed steps |
| Query.QueryAgent.FreeTextStage | WebWhisperer/IterativePromptCore/Query/QueryAgent.cs:260-292 | the free-text loop never raises; an accepted answer is non-empty, and in bot mode with a next token there is exactly one attempt, which accepts that token |
| Query.QueryAgent.ChooseTransformation | WebWhisperer/IterativePromptCore/Query/QueryAgent.cs:119-161 | the catalog is offered and the answer logged; the round breaks exactly when ReadCatalogAnswer quits, continues exactly when it rejects, throws the CreateByIndex exception on an unknown index, and otherwise goes on with the picked variant and the answer's text; in bot mode the answer is the next token's catalog index |
| Query.QueryAgent.Round | WebWhisperer/IterativePromptCore/Query/QueryAgent.cs:108-313 | one round breaks exactly on a quitting catalog answer and continues exactly on a rejected one, changing then only the suggestions and the offered catalog; thrown errors are ArgumentExceptions; it commits exactly when a transformation is built and tokens remain, never an Empty one, and the schema advances by Preprocess; in bot mode a committed transformation is BuildTransformation of the next tokens, and a spelled query always commits the one it spells |
| Query.QueryAgent.Proceed | WebWhisperer/IterativePromptCore/Query/QueryAgent.cs:162-306 | after a picked variant the round ends normally or with an ArgumentException; a transformation of the picked kind is committed exactly when it is built and tokens remain, and the schema advances by Preprocess; in bot mode a committed transformation is BuildTransformation of the name and the stage tokens, and a listed column, a vocabulary argument and enough tokens always commit it |
| Query.QueryAgent.Complete | WebWhisperer/IterativePromptCore/Query/QueryAgent.cs:295-306 | with exactly TotalStepsNeeded steps the build's transformation (of the chosen kind) is the result, or the build's exception is thrown; with any other count nothing is built and nothing changes; the result is committed exactly when tokens remain; the schema becomes Preprocess's result, or Preprocess's exception is thrown and the schema stays |
| Query.QueryAgent.CaughtRound | WebWhisperer/IterativePromptCore/Query/QueryAgent.cs:108-314 | one pass of the outer loop stops it exactly on a quitting catalog answer; the transformations only grow and stay non-Empty; the chatbot is asked at most once and only when the tokens run out; the first pass over a spelled bot query adds exactly one transformation, the one its tokens build |
| Query.QueryAgent.PerformQuerying | WebWhisperer/IterativePromptCore/Query/QueryAgent.cs:85-320 | at most one chatbot request when no token is empty; the chat keeps its introduction; no committed transformation is Empty; the moves returned were offered; the loop leaves tokens only after a quitting answer, the last suggestion; a spelled bot query commits first the transformation its tokens build |
| CsvParser.TableShape | WebWhisperer/IterativePromptCore/Parser/CsvParser.cs:68-103 | the parsed table is rectangular and numbered by row; field i is header i with Index i and the first record's type; cell r holds record r's value |
| CsvParser.NoRecordNoFields | WebWhisperer/IterativePromptCore/Parser/CsvParser.cs:107-111 | without a data record there are no fields |
| CsvParser.ParseCsvStream | WebWhisperer/IterativePromptCore/Parser/CsvParser.cs:37-113 | the loops over records and values build exactly the function Table |
| CsvParser.CreateFields | WebWhisperer/IterativePromptCore/Parser/CsvParser.cs:68-92 | the first record creates one empty field per header, typed by InferType of its value and numbered by position |
| CsvParser.AppendRecord | WebWhisperer/IterativePromptCore/Parser/CsvParser.cs:94-101 | a record appends value i, indexed by the record position, to field i, for every value that has a field |
| CsvParser.ParseFieldsIntoCsv | WebWhisperer/IterativePromptCore/Parser/CsvParser.cs:161-197 | the writer's loops produce exactly the records Records describes |
| CsvParser.WriteRow | WebWhisperer/IterativePromptCore/Parser/CsvParser.cs:179-190 | one row writes RowRecord and leaves rowEmpty set exactly when the last field has no cell at that row |
| CsvParser.ShortFieldSkipped | WebWhisperer/IterativePromptCore/Parser/CsvParser.cs:181-189 | a field without a cell at a row is skipped in that record, not padded |
| CsvParser.StopsOnLastField | WebWhisperer/IterativePromptCore/Parser/CsvParser.cs:176-193 | the header record, then exactly one record per row of the last field plus one, whatever the other fields hold |
| CsvParser.RectangularRecords | WebWhisperer/IterativePromptCore/Parser/CsvParser.cs:164-193 | for fields of n cells: the names, rows 0..n-1 in field order, then one empty record |
| CsvParser.ParseThenWrite | WebWhisperer/IterativePromptCore/Parser/CsvParser.cs:37-197 | reading records and writing the table back gives the header names, the same records in order, and one empty record |
| CsvParser.RowEmptyFollowsLastField | WebWhisperer/IterativePromptCore/Parser/CsvParser.cs:179-190 | after a pass over the fields, rowEmpty is set exactly when the last field has no cell at that row |
| CsvParser.NoFieldNeverStops | WebWhisperer/IterativePromptCore/Parser/CsvParser.cs:176-190 | with no field, rowEmpty stays false at every row, so the loop never ends |
| CsvParser.ShortLastFieldLosesRows | WebWhisperer/IterativePromptCore/Parser/CsvParser.cs:176-193 | a three-cell field followed by a one-cell field: the third cell is never written |
| CsvParser.MaxLenLeast | WebWhisperer/IterativePromptCore/Parser/CsvParser.cs:174-193 | the longest field length is the least bound of the field lengths |
| CsvParser.UntilAllEmptyWritesEveryCell | WebWhisperer/IterativePromptCore/Parser/CsvParser.cs:174-193 | the corrected writer writes every cell of every field in its row's record and ends with one empty record |
| CsvParser.UntilAllEmptyAgrees | WebWhisperer/IterativePromptCore/Parser/CsvParser.cs:176-193 | when the last field is a longest one, the writer as written and the corrected one agree |
| CsvParser.WriteFieldsIntoCsv | WebWhisperer/IterativePromptCore/Parser/CsvParser.cs:174-193 | the corrected loop ends for every input and produces RecordsUntilAllEmpty |
| CsvParser.WriteRowUntilAllEmpty | WebWhisperer/IterativePromptCore/Parser/CsvParser.cs:179-190 | the corrected row writes RowRecord and leaves rowEmpty set exactly when no field has a cell at that row |
| Whisper.SegmentsJoin | WebWhisperer/Services/WhisperService.cs:59 | the segments joined by '.' give the query back, and no segment holds a '.' |
| Whisper.SplitTokens | WebWhisperer/Services/WhisperService.cs:59 | every token is non-empty and holds no '.' |
| Whisper.SplitJoin | WebWhisperer/Services/WhisperService.cs:59 | non-empty, dot-free tokens joined by '.' split back into the same tokens |
| Whisper.MoveToFrontPermutes | WebWhisperer/Services/WhisperService.cs:67-74 | with the suggestion at its index, the moves are rearranged: same entries, suggestion first, earlier entries shifted one place, later ones unmoved |
| Whisper.MoveToFrontShape | WebWhisperer/Services/WhisperService.cs:67-77 | the length is kept; outside 0 < index < count nothing changes; inside, the suggestion is first and the others keep their order |
| Whisper.WhisperService.constructor | WebWhisperer/Services/WhisperService.cs:11-25 | an empty query and input, no transformations, no table loaded |
| Whisper.WhisperService.LoadInputFields | WebWhisperer/Services/WhisperService.cs:29-33 | the table is stored and marked loaded, nothing else changes |
| Whisper.WhisperService.StartNewConversation | WebWhisperer/Services/WhisperService.cs:38-43 | the query and the transformations are emptied and a new chat starts |
| Whisper.WhisperService.ProcessInput | WebWhisperer/Services/WhisperService.cs:50-78 | the query is stored; its tokens are non-empty, so at most one chatbot request; the transformations are the committed ones; the moves are the offered list with the suggestion moved first |
| Whisper.WhisperService.LoadUserInput | WebWhisperer/Services/WhisperService.cs:84-93 | the input is stored and handed to a new chat; the query so far is emptied |
| Whisper.WhisperService.GetCurrentTable | WebWhisperer/Services/WhisperService.cs:100-112 | no records without transformations; otherwise the pipeline's exception or its result written out |

## Definitions

Functions that only compute a value; the lemma named beside each states its properties.

| definition | source | defines |
|---|---|---|
| DataTypes.Schema | WebWhisperer/IterativePromptCore/Query/QueryAgent.cs:88 | the schema view of a table, one entry per field with its header; what Preprocess predicts of it is TransformationProperties.PreprocessPredictsSchema |
| DataTypes.CompareTo | WebWhisperer/IterativePromptCore/Types/Types.cs:67-73 | the plain cell comparison: the culture comparison of the contents, -1 against a null cell; no transformation uses it |
| DataTypes.CompareToTypeDependent | WebWhisperer/IterativePromptCore/Types/Types.cs:75-154 | the type-dependent comparison against a cell, sharing the rules of CompareTo_TypeDependent, whose properties are DataTypes.UnparsedRanksLast and DataTypes.AntisymmetricWhenParsed |
| ListExtensions.GetIndexes | WebWhisperer/IterativePromptCore/Types/Transformations.cs:12-26 | the Index of every cell, in order; its use is ListExtensions.SortAndGetIndexes |
| ListExtensions.Pick | WebWhisperer/IterativePromptCore/Types/Transformations.cs:64-69 | the cells at the given positions, renumbered; stated by ListExtensions.SelectRowsReindexes and TransformationProperties.SelectRowsRectangular |
| ListExtensions.SelectField | WebWhisperer/IterativePromptCore/Types/Transformations.cs:61-77 | the re-slice of one field; stated by ListExtensions.SelectRows and TransformationProperties.SelectRowsRectangular |
| Transformations.CatalogNames | WebWhisperer/IterativePromptCore/Query/QueryAgent.cs:15-22 | the catalog names in index order; stated by Transformations.CatalogIndexes |
| Transformations.GetNextMoves | WebWhisperer/IterativePromptCore/Types/Transformations.cs:392-400 | the header names of the schema; stated by Query.SpelledTransformation and Query.QueryAgent.ColumnStage |
| Transformations.GetArgumentAt | WebWhisperer/IterativePromptCore/Types/Transformations.cs:473-478 | the vocabulary entry at an index; stated by Transformations.VocabularyIsRecognised and Query.ArgumentOutcome |
| Transformations.TotalStepsNeeded | WebWhisperer/IterativePromptCore/Types/Transformations.cs:319-323 | the number of stage answers of a variant; stated by Transformations.StepsAreStages |
| Transformations.DropSchema | WebWhisperer/IterativePromptCore/Types/Transformations.cs:379-386 | the look-ahead schema of DropColumn; stated by Transformations.DropSchemaKeeps |
| Transformations.DropFields | WebWhisperer/IterativePromptCore/Types/Transformations.cs:370-377 | the table DropColumn leaves; stated by Transformations.DropFieldsKeeps |
| TableTransformations.SortByResult | WebWhisperer/IterativePromptCore/Types/Transformations.cs:435-448 | SortBy's result; stated by TransformationProperties.SortByRowPermutation and SortByOrdersColumn |
| TableTransformations.FilterByResult | WebWhisperer/IterativePromptCore/Types/Transformations.cs:687-721 | FilterBy corrected; stated by TransformationProperties.FilterByRows |
| TableTransformations.GroupKeys | WebWhisperer/IterativePromptCore/Types/Transformations.cs:526-528 | the distinct contents of the target column; stated by GroupByProperties.GroupKeysCover and GroupKeysFirstSeen |
| TableTransformations.GroupIndexes | WebWhisperer/IterativePromptCore/Types/Transformations.cs:526-528 | the rows of each key; stated by GroupByProperties.GroupsPartitionRows |
| TableTransformations.KeyColumn | WebWhisperer/IterativePromptCore/Types/Transformations.cs:545-553 | the new target column; stated by GroupByProperties.GroupByShape |
| TableTransformations.AggregateColumn | WebWhisperer/IterativePromptCore/Types/Transformations.cs:557-600 | one aggregate per group; stated by GroupByProperties.CountAllSumsToRows and CountDistinctAtMostCountAll |
| TableTransformations.GroupByResult | WebWhisperer/IterativePromptCore/Types/Transformations.cs:519-606 | GroupBy's result; stated by GroupByProperties.GroupByShape and GroupKeyThrows |
| TableTransformations.TransformationResult | WebWhisperer/IterativePromptCore/Types/Transformations.cs:325-721 | the result of one transformation; stated by TransformationProperties.PreprocessPredictsSchema |
| TableTransformations.Pipeline | WebWhisperer/IterativePromptCore/Types/Transformations.cs:758-767 | the left-to-right fold of the transformations; stated by TransformationProperties.PipelineAppend |
| FilterByDeferred.FilterByAsWritten | WebWhisperer/IterativePromptCore/Types/Transformations.cs:687-721 | FilterBy as written; stated by FilterByDeferred.AsWrittenShape and the AsWritten lemmas |
| Text.IntToString | WebWhisperer/IterativePromptCore/Communication/CommunicationAgent.cs:261 | Int32.ToString; stated by Text.ParseIntOfIntToString |
| Query.IndexOfItem | WebWhisperer/IterativePromptCore/Query/QueryAgent.cs:129 | List.IndexOf; stated by Query.PositionIsFirst |
| Query.ChoiceOf | WebWhisperer/IterativePromptCore/Query/QueryAgent.cs:184-189 | the stage check; stated by Query.EchoResolves and Query.ArgumentOutcome |
| Query.RejectionMessage | WebWhisperer/IterativePromptCore/Query/QueryAgent.cs:196-205 | the message of a failed stage check: empty, not an integer, out of range |
| Communication.Introduction | WebWhisperer/IterativePromptCore/Communication/CommunicationAgent.cs:26-81 | the three system messages of a new chat; stated by Communication.CommunicationAgent.FlushCurrentChat |
| CsvParser.InferType | WebWhisperer/IterativePromptCore/Parser/CsvParser.cs:72-79 | the type of a first-record value; stated by CsvParser.TableShape |
| CsvParser.Table | WebWhisperer/IterativePromptCore/Parser/CsvParser.cs:37-113 | the table the parser builds; stated by CsvParser.TableShape |
| CsvParser.Records | WebWhisperer/IterativePromptCore/Parser/CsvParser.cs:161-197 | the records the writer writes; stated by CsvParser.StopsOnLastField and RectangularRecords |
| CsvParser.RecordsUntilAllEmpty | WebWhisperer/IterativePromptCore/Parser/CsvParser.cs:174-193 | the records the corrected writer writes; stated by CsvParser.UntilAllEmptyWritesEveryCell |
| Whisper.RemoveEmpty | WebWhisperer/Services/WhisperService.cs:59 | the query segments without the empty ones; stated by Whisper.SplitTokens |
| Whisper.Split | WebWhisperer/Services/WhisperService.cs:59 | the query tokens; stated by Whisper.SplitTokens and Whisper.SplitJoin |
| Whisper.MoveToFront | WebWhisperer/Services/WhisperService.cs:67-74 | the bot suggestion moved first; stated by Whisper.MoveToFrontPermutes and MoveToFrontShape |

## Left out

- The CSV text: quoting, delimiters and encoding belong to the CSV library. Records are
  sequences of texts, and GetCurrentTable's empty text is the empty record list.
- CsvParser.ParseCsvStream: every record is taken to hold one value per header, which is what
  the reader's dictionary records hold. Duplicate header names are not modelled, and neither is
  a null record, which still advances the row counter.
- OpenAI and the console: the chatbot is a function of the chat log, the console a sequence of
  lines; printing (verbose mode, ShowConversationHistory) is not modelled.
- Communication.CommunicationAgent.GetResponse: the chat library's appending of the chatbot's
  reply to the conversation is not modelled.
- Communication.CommunicationAgent.WithApi: the chat is an empty log before the first flush,
  where the source has null; the conversation settings (model, temperature) are not modelled.
- The constructors that read API keys (WhisperService, CreateOpenAIServerQueryAgent): the
  model takes the query agent as a parameter.
- Culture-dependent parsing and comparison (bool, DateTime, double, string.Compare) are
  uninterpreted; GroupBy Sum and Mean use double arithmetic and "F2" formatting and are
  uninterpreted functions of the group's contents.
- ListExtensions.SortCells: List.Sort is an unstable introsort; the model sorts by insertion,
  so the order of cells that compare equal is not the runtime's.
- ListExtensions.ReArrangeAndSelectByIndex: the header reference comparison is modelled by the
  position of the sorted field; in-place updates of shared Cell objects (aliasing between the
  old and new lists) are modelled on values.
- FilterByDeferred.FilterByAsWritten: modelled for a filtered column whose cells are numbered
  by position, the layout the parser and every transformation leave behind.
- Query.RejectionMessage: the source's fourth rejection message is unreachable (all three
  checks would have to pass) and is not modelled.
- Query.QueryAgent.Round: the bot-mode theorem assumes a schema shorter than 2^31 columns, so
  that every index fits an Int32.
- Query.SpelledTransformation: GroupBy queries built by PerformQuerying carry the groups {""}
  (the third stage answer is empty for GroupBy), which is what the theorem states.
- TableTransformations.TransformationResult: runs the corrected FilterBy (`FilterByResult`, the
  first Finding) where the source runs the deferred query; FilterBy as written is
  `FilterByDeferred.FilterByAsWritten`.
- TableTransformations.Pipeline: folds `TransformationResult`, so it runs the corrected FilterBy.
- TableTransformations.PerformTransformation: the FilterBy case computes the corrected
  `FilterByResult`, not the deferred query of the source.
- TableTransformations.TransformFields: runs the corrected FilterBy, through `Pipeline`.
- Whisper.WhisperService.GetCurrentTable: runs the corrected FilterBy, through `Pipeline`.
- TransformationProperties.EqualsNotEqualsSplitRows: about the corrected FilterBy; FilterBy as written has
  `FilterByDeferred.AsWrittenEqualsNotEqualsSplitRows`.
- TransformationProperties.EqualsLeavesOnlyMatches: about the corrected FilterBy; FilterBy as written has
  `FilterByDeferred.AsWrittenEqualsLeavesOnlyMatches`.
- TransformationProperties.FilterWithoutMatchesEmpties: about the corrected FilterBy; FilterBy as written has
  `FilterByDeferred.AsWrittenWithoutMatchesEmpties`.
- TransformationProperties.EqualsThenNotEqualsIsEmpty: about the corrected FilterBy; FilterBy as written has
  `FilterByDeferred.AsWrittenEqualsThenNotEqualsIsEmpty`.
- Null references (a missing table before LoadInputFields, null arguments) and concurrency
  are not modelled.
- Whisper.WhisperService.ProcessInput: the view model's BotSuggestion and BotSuggestionIndex
  are functions of the view model given to the constructor; the view model class is not part
  of this model.
- CsvParser.ParseFieldsIntoCsv: requires at least one field, because with none the loop as
  written never ends (see Findings). The overload that writes to a file path
  (WebWhisperer/IterativePromptCore/Parser/CsvParser.cs:120-154) has the same loop and is
  modelled by the same member.
- Whisper.WhisperService.GetCurrentTable: returns the records rather than CSV text, and writes
  them with the corrected writer `CsvParser.WriteFieldsIntoCsv`, so that every table, including
  one with every column dropped, is rendered.
- The ASP.NET controller and the web page that call WhisperService are not part of this model.

## Findings

| source | as written | input that shows it | evidently intended | confidence | as-written member | corrected member |
|---|---|---|---|---|---|---|
| WebWhisperer/IterativePromptCore/Types/Transformations.cs:694-719 | FilterBy hands ReArrangeAndSelectByIndex a deferred LINQ query, which re-runs for every column after the filtered column has been renumbered | Name [Alice, Bob], Age [30, 25], filter Name Equals Bob: the result pairs Bob with 30 | the matching rows computed once, so every column keeps the same rows (Bob, 25) | not executed | FilterByDeferred.AsWrittenMisalignsRows | TransformationProperties.FilterByRows |
| WebWhisperer/IterativePromptCore/Parser/CsvParser.cs:174-193 | the row loop stops when the last field has no cell, since each field overwrites rowEmpty | no fields at all (every column dropped): the loop never ends; fields [x, y, z] and [u]: z is never written | the loop stops after the first row at which no field has a cell, as its comment says | not executed | CsvParser.ShortLastFieldLosesRows | CsvParser.UntilAllEmptyWritesEveryCell |
