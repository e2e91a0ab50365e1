# Trace recorder of the SpecFlow logging step definitions

`TestScriptGenerator/LoggingStepDefinitions.cs` is a SpecFlow binding class.
Each of its ten hook handlers and six step handlers writes exactly one line
to the diagnostic trace. Each line is a PowerShell-style literal: `@{ ... }`
hashtables, `@()` for an empty array, `$Null`, and `Argument(v)` around every
value a step captured. Together the lines form the body of a comma-separated
sequence literal, so every line ends with `),`. The one exception is the
run-end hook, whose line `(Hook 'AfterTestRun')` closes the sequence.

Two pure formatters sit under the handlers:

- `DescribeTableData` renders a step's table. It writes the header names
  joined by `', '`, then one `@{ 'col' = 'value'; ... }` record per row, with
  `'$Null'` for an absent cell. A table with exactly one row gets an extra
  leading `,`, which is PowerShell's unary array operator.
- `DescribeTags` renders `@()` when the collection it is given is empty.
  Otherwise it renders the comma-join of the *current scenario's* tags.

The project consists of these modules:

- `Text` (`text.dfy`): the string operations the C# code uses (`string.Join`, quoting, prefix and suffix tests) and the small readers used to state round trips.
- `Decimal` (`decimal.dfy`): how C# interpolation writes an `int`, the 32-bit range of `int`, and a reader for it.
- `Tables` (`tables.dfy`): the table as a header plus rows of `map<string, Option<string>>`. It holds `DescribeTableData`, a reader `ParseTable` for its output and the round trip between them.
- `Tags` (`tags.dfy`): `DescribeTags`, with the ambient scenario tags as a second parameter, and its reader.
- `Steps` (`steps.dfy`): the six step calls as a datatype, the line each one writes, a reference renderer for the documented line layout, and the reader of step lines.
- `Hooks` (`hooks.dfy`): the ten hook calls, each carrying the ambient context values it reads. It holds their lines, a reference renderer and the reader of hook lines.
- `Recorder` (`recorder.dfy`): the class `LoggingStepDefinitions`. Its `trace` field is the trace sink. Each handler method appends exactly its line, and the ghost `calls` field records which calls wrote the trace. The module also holds the properties of whole traces.
- `F13Tables` and `F13Run` (`f13_tables.dfy`, `f13_run.dfy`): the generated feature `f13` used as concrete inputs. They hold its two tables, its three example amounts, and a driver that runs the recorder through the feature's lifecycle.

The ambient `FeatureContext.Current` and `ScenarioContext.Current` are explicit
parameters. `SetupFeature` receives the feature's title and tags and the
current scenario, if there is one. For a tagged feature the handler reads that
scenario's tags; when no scenario is current it throws and writes nothing. `SetupScenario` receives the scenario's title and
tags. `SetupScenarioBlock` receives the current block, and `SetupStep`
receives the step's type.

## Model

| member | source | states |
|---|---|---|
| Tables.CellText | TestScriptGenerator/LoggingStepDefinitions.cs:125 | a cell's text is the null sentinel exactly when the cell is absent or holds the text `$Null` |
| Tables.CellLiteral | TestScriptGenerator/LoggingStepDefinitions.cs:125 | one cell as `'<col>' = '<value>'`; Tables.ParseCellRoundTrip reads it back as its column and text |
| Tables.RowLiteral | TestScriptGenerator/LoggingStepDefinitions.cs:123-125 | one row as `@{ `, its cells joined by `; `, and ` }`; Tables.RowLiteralCells states its cells, and Tables.ParseRecordRoundTrip reads it back |
| Tables.ParseRecordRoundTrip | TestScriptGenerator/LoggingStepDefinitions.cs:123-125 | a row's record, whatever text follows it, reads back as the row's cells (column and text, in header order) and leaves exactly the following text, when the header is not empty and no column name or cell text holds a quote |
| Tables.RowsSegment | TestScriptGenerator/LoggingStepDefinitions.cs:121-130 | the text after `Rows = `; Tables.LeadingCommaIffSingleRow, Tables.SingleRowSegment and Tables.SegmentHoldsEveryRecord state its shape |
| Tables.SegmentHoldsEveryRecord | TestScriptGenerator/LoggingStepDefinitions.cs:121-130 | every row's record occurs in the rows segment |
| Tables.UnambiguousByRows | TestScriptGenerator/LoggingStepDefinitions.cs:119-132 | a table reads back from its literal when it has a header, no quote in a column name, and every row is readable: each column present, no quote in its text, and not the text `$Null` |
| Tables.DescribeTableData | TestScriptGenerator/LoggingStepDefinitions.cs:131 | the table literal always opens with `@{ Header = '` and closes with ` }` |
| Tables.SingleRowSegment | TestScriptGenerator/LoggingStepDefinitions.cs:127-130 | for exactly one row the rows segment is `,` immediately followed by that row's record |
| Tables.LeadingCommaIffSingleRow | TestScriptGenerator/LoggingStepDefinitions.cs:121-130 | the rows segment is empty iff there are no rows, and it starts with `,` iff there is exactly one row |
| Tables.EmptyTableLiteral | TestScriptGenerator/LoggingStepDefinitions.cs:121-131 | a table with no rows renders exactly `@{ Header = '<joined>'; Rows =  }` |
| Tables.RowLiteralCells | TestScriptGenerator/LoggingStepDefinitions.cs:123-125 | a row record has one cell per header column, in header order, each `'<col>' = '<value>'`; an absent cell is written with the null sentinel and never left out |
| Tables.NullLiteral | TestScriptGenerator/LoggingStepDefinitions.cs:125 | the null sentinel appears in the literal as `'$Null'` |
| Tables.NullCellIndistinguishable | TestScriptGenerator/LoggingStepDefinitions.cs:125 | an absent cell and a cell holding the text `$Null` give the same literal, so the literal cannot tell them apart |
| Tables.DescribeTableDataRoundTrip | TestScriptGenerator/LoggingStepDefinitions.cs:119-132 | reading the literal back gives the same header and the same rows in the same order, for any table with a header, no quote in names or values and no `$Null` value |
| Tags.DescribeTags | TestScriptGenerator/LoggingStepDefinitions.cs:111-117 | renders `@()` for an empty argument; otherwise the result shows every tag of the current scenario |
| Tags.EmptyLiteralIffNoTags | TestScriptGenerator/LoggingStepDefinitions.cs:111-117 | the tags literal is `@()` exactly when the collection passed in is empty (scenario tags without `@`) |
| Tags.OnlyEmptinessOfArgumentMatters | TestScriptGenerator/LoggingStepDefinitions.cs:113-115 | for any two non-empty arguments the result is the same: the comma-join of the current scenario's tags |
| Tags.ScenarioTagsRoundTrip | TestScriptGenerator/LoggingStepDefinitions.cs:111-117 | for a scenario's own tags (without `,` or `@`), splitting the literal gives the tags back in order, and `@()` gives none |
| Decimal.FormatIntRoundTrip | TestScriptGenerator/LoggingStepDefinitions.cs:90 | the decimal text of an `int` argument reads back as the same number |
| Decimal.FormatIntInjective | TestScriptGenerator/LoggingStepDefinitions.cs:90 | different numbers are written differently |
| Decimal.FormatInt | TestScriptGenerator/LoggingStepDefinitions.cs:90 | how an `int` argument is interpolated: never empty, a leading `-` exactly for a negative number, digits everywhere else, and no leading zero except in `0` itself; Decimal.FormatIntRoundTrip reads it back |
| Decimal.ParseArgumentRoundTrip | TestScriptGenerator/LoggingStepDefinitions.cs:96 | an `int` written inside `Argument(...)` reads back as itself, whatever follows the `)` |
| Steps.StepLine | TestScriptGenerator/LoggingStepDefinitions.cs:72-109 | the line each step handler writes; Steps.StepLineFollowsLayout, Steps.StepLineShape and Steps.ArgumentsAppearWrapped state its layout, and Steps.ParseStepLineRoundTrip reads it back |
| Steps.StepLineFollowsLayout | TestScriptGenerator/LoggingStepDefinitions.cs:72-109 | every step line is `(Step -<verb> '<text>'`, then ` -tableArgument <table>` only for a table-taking step, then `),`, where the text has every captured value as `Argument(v)`; `HaveTheseFriends` alone puts a space before `),` |
| Steps.StepLineShape | TestScriptGenerator/LoggingStepDefinitions.cs:72-109 | every step line starts with `(Step -given '`, `(Step -when '` or `(Step -then '` by its step kind, ends with `),`, and contains ` -tableArgument <table literal>` when the step takes a table |
| Steps.CapturesAppearWrapped | TestScriptGenerator/LoggingStepDefinitions.cs:83-102 | every captured value of a step text appears in the rendered text as `Argument(<v>)` |
| Steps.ArgumentsAppearWrapped | TestScriptGenerator/LoggingStepDefinitions.cs:80-103 | every argument a step handler receives appears in its line as `Argument(<v>)`, with `int` arguments in decimal |
| Steps.ParseStepLineRoundTrip | TestScriptGenerator/LoggingStepDefinitions.cs:72-109 | a step line reads back as the same step with the same arguments and table (tables readable as above) |
| Hooks.HookLine | TestScriptGenerator/LoggingStepDefinitions.cs:12-70 | the line each hook handler writes; Hooks.HookLineFollowsLayout and Hooks.HookLineEnds state its layout, and Hooks.ParseHookLineRoundTrip reads it back |
| Hooks.FeatureHook | TestScriptGenerator/LoggingStepDefinitions.cs:24-28 | a feature start throws and writes no line exactly when the feature has tags and no scenario is current; otherwise its line shows `@()` for an untagged feature and the current scenario's tags joined by `,` for a tagged one |
| Hooks.HookLineFollowsLayout | TestScriptGenerator/LoggingStepDefinitions.cs:12-70 | every hook line is `(Hook '<name>'`, then ` -withContext <context>` for the four hooks that read a context, then `)`, and then `,` for every hook except the run end |
| Hooks.RenderHookEnds | TestScriptGenerator/LoggingStepDefinitions.cs:12-70 | a line in the hook layout opens with the quoted hook name, and it ends with `),` exactly when it is separated |
| Hooks.HookLineEnds | TestScriptGenerator/LoggingStepDefinitions.cs:12-70 | every hook line starts with `(Hook '<hook name>'` and ends with `),`, except `AfterTestRun`, which ends with `)` |
| Hooks.ParseContextLiteralRoundTrip | TestScriptGenerator/LoggingStepDefinitions.cs:27 | the feature or scenario context literal `@{ Name = '...'; Description = $Null; Tags = ... }` reads back as its title and tags literal |
| Hooks.KindNameRoundTrip | TestScriptGenerator/LoggingStepDefinitions.cs:63 | the step type written after `$StepTypeEnum.` identifies the step type |
| Hooks.BlockNameRoundTrip | TestScriptGenerator/LoggingStepDefinitions.cs:51 | the scenario block written after `$StepTypeEnum.` identifies the block |
| Hooks.FeatureTagsReread | TestScriptGenerator/LoggingStepDefinitions.cs:27 | what a feature line shows as tags re-renders to the same text when read back |
| Hooks.ParseHookLineRoundTrip | TestScriptGenerator/LoggingStepDefinitions.cs:12-70 | every hook line reads back as the same hook with the same context values; an untagged feature's line reads back exactly, and a tagged feature's line reads back as a hook that writes the same line |
| Hooks.ParseUntaggedFeatureRoundTrip | TestScriptGenerator/LoggingStepDefinitions.cs:24-28 | the line of an untagged feature, whose scenario tags are never read, reads back as the same feature |
| Recorder.Transcript | TestScriptGenerator/LoggingStepDefinitions.cs:12-109 | a sequence of handler calls writes one line per call, the i-th line being the i-th call's line |
| Recorder.TranscriptAppend | TestScriptGenerator/LoggingStepDefinitions.cs:12-109 | one more call appends exactly its line to the trace |
| Recorder.LoggingStepDefinitions.constructor | TestScriptGenerator/LoggingStepDefinitions.cs:10 | a fresh recorder has an empty trace |
| Recorder.LoggingStepDefinitions.WriteLine | TestScriptGenerator/LoggingStepDefinitions.cs:15 | writing appends exactly one line to the sink |
| Recorder.LoggingStepDefinitions.Handle | TestScriptGenerator/LoggingStepDefinitions.cs:12-109 | a handler call appends exactly its line, records the call, and keeps the trace equal to the transcript of the recorded calls |
| Recorder.LoggingStepDefinitions.SetupTestRun | TestScriptGenerator/LoggingStepDefinitions.cs:12-16 | appends `(Hook 'BeforeTestRun'),` and nothing else |
| Recorder.LoggingStepDefinitions.TeardownTestRun | TestScriptGenerator/LoggingStepDefinitions.cs:18-22 | appends `(Hook 'AfterTestRun')` and nothing else |
| Recorder.LoggingStepDefinitions.SetupFeature | TestScriptGenerator/LoggingStepDefinitions.cs:24-28 | throws, leaving the trace as it was, exactly when the feature has tags and no scenario is current; otherwise it appends the feature line with the feature's title and tags literal, and nothing else |
| Recorder.LoggingStepDefinitions.TeardownFeature | TestScriptGenerator/LoggingStepDefinitions.cs:30-34 | appends `(Hook 'AfterFeature'),` and nothing else |
| Recorder.LoggingStepDefinitions.SetupScenario | TestScriptGenerator/LoggingStepDefinitions.cs:36-40 | appends the scenario line with the scenario's title and tags, and nothing else |
| Recorder.LoggingStepDefinitions.TeardownScenario | TestScriptGenerator/LoggingStepDefinitions.cs:42-46 | appends `(Hook 'AfterScenario'),` and nothing else |
| Recorder.LoggingStepDefinitions.SetupScenarioBlock | TestScriptGenerator/LoggingStepDefinitions.cs:48-52 | appends the block line naming the current block, and nothing else |
| Recorder.LoggingStepDefinitions.TeardownScenarioBlock | TestScriptGenerator/LoggingStepDefinitions.cs:54-58 | appends `(Hook 'AfterScenarioBlock'),` and nothing else |
| Recorder.LoggingStepDefinitions.SetupStep | TestScriptGenerator/LoggingStepDefinitions.cs:60-64 | appends the step-hook line naming the step type, and nothing else |
| Recorder.LoggingStepDefinitions.StepTeardown | TestScriptGenerator/LoggingStepDefinitions.cs:66-70 | appends `(Hook 'AfterStep'),` and nothing else |
| Recorder.LoggingStepDefinitions.HaveTheseFriends | TestScriptGenerator/LoggingStepDefinitions.cs:72-78 | appends the friends line with the table literal, and nothing else |
| Recorder.LoggingStepDefinitions.CallMeLikeThis | TestScriptGenerator/LoggingStepDefinitions.cs:80-84 | appends the `Call me` line with the name wrapped, and nothing else |
| Recorder.LoggingStepDefinitions.SomePlusSomeGivesSome | TestScriptGenerator/LoggingStepDefinitions.cs:87-91 | appends the sum line with the three numbers wrapped, and nothing else |
| Recorder.LoggingStepDefinitions.BorrowDollarsFrom | TestScriptGenerator/LoggingStepDefinitions.cs:93-97 | appends the borrow line with the amount wrapped and the table literal, and nothing else |
| Recorder.LoggingStepDefinitions.ShouldHaveOnlyFriend | TestScriptGenerator/LoggingStepDefinitions.cs:99-103 | appends the only-friend line with the name wrapped, and nothing else |
| Recorder.LoggingStepDefinitions.ThenEverythingShouldBeAlright | TestScriptGenerator/LoggingStepDefinitions.cs:105-109 | appends `(Step -then 'everything should be alright'),` and nothing else |
| Recorder.CallLineEnds | TestScriptGenerator/LoggingStepDefinitions.cs:12-109 | a handler's line ends with `),` iff the handler is not the run end, whose line ends with `)` |
| Recorder.TraceSeparated | TestScriptGenerator/LoggingStepDefinitions.cs:12-109 | in a trace that the run end closes, every line but the last ends with `),` and the last ends with `)` |
| Recorder.ParseCallLineRoundTrip | TestScriptGenerator/LoggingStepDefinitions.cs:12-109 | a single line tells whether a hook or a step wrote it, and reads back as that call, untagged feature starts included |
| Recorder.TraceReadsBack | TestScriptGenerator/LoggingStepDefinitions.cs:12-109 | reading a trace back line by line gives the calls in the order they were made |
| F13Tables.FriendsTableLiteral | TestScriptGenerator/Features/f13.feature.cs:76-87 | the two-row friends table renders with no leading comma and the Sam and Tom records joined by `, ` in row order |
| F13Tables.BorrowTableLiteral | TestScriptGenerator/Features/f13.feature.cs:91-96 | the one-row borrow table renders with exactly one leading comma before Tom's record |
| F13Tables.AmountsRender | TestScriptGenerator/Features/f13.feature.cs:112-134 | the example amounts 42, 1923 and 1000000 are written as `42`, `1923` and `1000000` |
| F13Tables.BorrowLineShowsAmount | TestScriptGenerator/Features/f13.feature.cs:91-98 | borrowing 1923 with the borrow table writes a line containing `Argument(1923)` and a rows segment with one leading comma |
| F13Tables.FriendsTableUnambiguous | TestScriptGenerator/Features/f13.feature.cs:76-87 | the friends table reads back from its literal |
| F13Tables.BorrowTableUnambiguous | TestScriptGenerator/Features/f13.feature.cs:91-96 | the borrow table reads back from its literal |
| F13Run.RunLifecycle | TestScriptGenerator/LoggingStepDefinitions.cs:12-70 | run start, feature start, scenario start, step start, step end, scenario end, feature end and run end write exactly eight lines, in that order, each one the literal line of its hook |
| F13Run.GivenBlock | TestScriptGenerator/Features/f13.feature.cs:76-89 | the Given block appends block start, step start, the friends step, step end and block end, in that order |
| F13Run.WhenBlock | TestScriptGenerator/Features/f13.feature.cs:91-98 | the When block appends the same frame around the borrow step |
| F13Run.ThenBlock | TestScriptGenerator/Features/f13.feature.cs:100 | the Then block appends the same frame around the only-friend step |
| F13Run.RunS13 | TestScriptGenerator/Features/f13.feature.cs:70-103 | one example of scenario s13 appends the scenario start, its three blocks and the scenario end |
| F13Run.RunF13 | TestScriptGenerator/Features/f13.feature.cs:29-136 | a run of feature f13 writes the transcript of its calls: run and feature start, the three examples in order, then feature and run end |
| F13Run.S13Recoverable | TestScriptGenerator/Features/f13.feature.cs:70-103 | every call of scenario s13 reads back from its line, and none of them is the run end |
| F13Run.F13TraceSeparated | TestScriptGenerator/Features/f13.feature.cs:29-136 | the f13 trace has 55 lines; the first 54 end with `),` and the last is `(Hook 'AfterTestRun')` |
| F13Run.F13StartsWithoutScenario | TestScriptGenerator/Features/f13.feature.cs:32-33 | feature f13 has no tags, so its start writes its line although no scenario is current yet |
| F13Run.F13TraceReadsBack | TestScriptGenerator/Features/f13.feature.cs:29-136 | every line of the f13 trace, the feature line included, reads back as the call that wrote it |

## Left out

- `Trace.WriteLine` is not modelled as real I/O. The sink is the `trace` field, and newlines and listener behaviour are not modelled.
- SpecFlow's regex step binding and the conversion of captured text to `int` are left out. Handlers are called with resolved arguments, and the example amounts are passed as numbers.
- The ambient `FeatureContext.Current` and `ScenarioContext.Current` are explicit parameters. A `null` tag array in the generated code is modelled as an empty one.
- The internals of SpecFlow's `Table` are left out. A table is a header plus rows whose keys are exactly the header's columns, which `Table` guarantees by construction; a row with missing cells is not representable.
- The unused local `rowsData` in `HaveTheseFriends` (line 75) is left out, because it has no observable effect.
- Concurrency and serialisation of the sink are left out; the code has none.
- Culture-specific number formatting is left out. Integers are written with `-` and decimal digits, as the invariant culture does.
- The names of SpecFlow's enumeration members are assumed: `Given`, `When` and `Then`, plus `None` for the absence of a block. `StepDefinitionType` and `ScenarioBlock` are not part of this model.
- The order in which SpecFlow's test runner fires hooks, and the generated test-class scaffolding, are not part of this model. `F13Run` fires them nested as run, feature, scenario, block, step, with one block per step.
- Hooks.ParseHookLineRoundTrip: a tagged feature's line reads back only up to the line it writes, because the line shows the current scenario's tags and not the feature's own.
- Recorder.TraceReadsBack: it needs recoverable calls. Tagged feature starts are excluded for the reason above. Titles must not contain a quote, and tags must not contain `,` or `@`. Tables must be readable as below.
- Tables.DescribeTableDataRoundTrip: it needs a non-empty header and no quote in any name or value. No cell may hold the text `$Null`, which the literal does not distinguish from an absent cell (Tables.NullCellIndistinguishable). The literal has no escaping, so these inputs cannot be read back.
- Tags.EmptyLiteralIffNoTags: it needs scenario tags without `@`. A single scenario tag `@()` would render like an empty collection.
