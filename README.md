# janis-core translation and Galaxy ingestion rules, in Dafny

janis-core turns an abstract pipeline description into Nextflow and WDL text: typed
tool inputs and outputs, selectors, step edges and scatter annotations. It also
ingests Galaxy tool XML into that description. This project models the parts of it
that decide something. Each one gets datatypes, functions and methods with contracts,
and lemmas prove the properties the code and its tests promise.

Nextflow, current generator:
- the output-collection planner (`factory_cmdtool.py`, module `CmdtoolOutputs`);
- task-call assembly (`call.py`, module `TaskCall`);
- the two process-input cascades (`GenerateProcessInputs`, `ParsingProcessInputs`, sharing the inputs and the input loop of `TaskInputs`);
- the process helpers of `process/factory.py` (`ProcessFactory`).

Nextflow, legacy translator (`nextflow.py`, module `NextflowLegacy`): expression
unwrapping, input-selector resolution, the inputs file, script layout and qualifiers.

WDL lowering (`WdlLowering`, with concrete cases in `WdlExamples` and, for command inputs, `WdlCommandExamples`). The translator
module is not part of this model, so the behaviour modelled is what
`test_translation_wdl.py` fixes with exact strings: the right-nested `zip` of a dot
scatter and its `.left`/`.right` projections, secondary-file transposition, command
inputs and scalar-to-array wrapping.

Galaxy ingestion:
- output extraction and prioritisation (`outputs.py`, module `GalaxyOutputs`, over `GalaxyComponents`);
- datatype and selector mapping (`general.py`, module `GalaxyMapping`);
- tool metadata (`metadata.py`, module `GalaxyMetadata`).

Shared modules:
- `JanisTypes`: Janis data types and the type predicates of `translation_utils`;
- `StableSort`: a stable sort by a real key, standing for Python's `sorted` and `list.sort`;
- `Text`: string helpers;
- `Wrappers`: `Option` and `Result`.

Python exceptions are `Err` values of a `Result`. Objects whose fields the source
updates are classes; the rest are datatypes and functions.

## Model

| member | source | states |
|---|---|---|
| CmdtoolOutputs.HasNCollectors | janis_core/translations/nextflow/generate/process/outputs/factory_cmdtool.py:87-99 | None counts 0 collectors, a string or a Selector 1, a list its length; the result says whether the count is n; any other selector leaves the count unbound and fails |
| CmdtoolOutputs.IsNonFileType | janis_core/translations/nextflow/generate/process/outputs/factory_cmdtool.py:80-85 | true exactly for the outputs whose type is_file_type rejects; a standard output is never a non-file output |
| CmdtoolOutputs.GetOtype | janis_core/translations/nextflow/generate/process/outputs/factory_cmdtool.py:45-73 | the classification fails only as NotImplemented or as an unbound collector count; FILE and FILE_ARRAY only for file types, FILE_ARRAY only for an array with one collector, NON_FILE only for a non-file type with one collector |
| CmdtoolOutputs.StdoutComesFirst | janis_core/translations/nextflow/generate/process/outputs/factory_cmdtool.py:45-47 | an output is classified STDOUT exactly when its type is Stdout, whatever else holds |
| CmdtoolOutputs.OtypeFailures | janis_core/translations/nextflow/generate/process/outputs/factory_cmdtool.py:45-72 | classification fails exactly for a non-file output without exactly one collector, or a plain file array whose selector is of no known kind |
| CmdtoolOutputs.FileArrayFallsThroughToFile | janis_core/translations/nextflow/generate/process/outputs/factory_cmdtool.py:61-65 | a plain file array with a collector count other than 1 is classified FILE |
| CmdtoolOutputs.OtypeMatchesShape | janis_core/translations/nextflow/generate/process/outputs/factory_cmdtool.py:45-72 | NON_FILE exactly for non-file types; the array kinds only for arrays; FILEPAIR, SECONDARIES and STDOUT never for arrays |
| CmdtoolOutputs.FmtTypeCases | janis_core/translations/nextflow/generate/process/outputs/factory_cmdtool.py:165-215 | a glob string or WildcardSelector gives WILDCARD and nothing else does; a non-Filename input selector gives STATIC or REFERENCE by the registry; other selectors give COMPLEX; REFERENCE only for input selectors |
| CmdtoolOutputs.GetFmtType | janis_core/translations/nextflow/generate/process/outputs/factory_cmdtool.py:175 | fails exactly when the input selector names an input the tool does not have |
| CmdtoolOutputs.QuoteCollection | janis_core/translations/nextflow/generate/process/outputs/factory_cmdtool.py:217-240 | REFERENCE text is left alone; otherwise the result starts or ends with a double quote, and is the text itself exactly when the text already starts or ends with one, else the text in double quotes |
| CmdtoolOutputs.ComplexSecondaryReplacesLastOccurrence | janis_core/translations/nextflow/generate/process/outputs/factory_cmdtool.py:354-384 | a complex secondary keeps the primary expression around the last occurrence of the primary extension and replaces that occurrence with the formatted secondary extension (the presents-as pattern when given) |
| CmdtoolOutputs.ComplexSecondaryFallsBackToWildcard | janis_core/translations/nextflow/generate/process/outputs/factory_cmdtool.py:361-366 | without an occurrence of the primary extension, each secondary is `"*ext"` with carets stripped |
| CmdtoolOutputs.ReferenceTupleAt | janis_core/translations/nextflow/generate/process/outputs/factory_cmdtool.py:314-342 | a reference tuple is the primary followed by one expression per further extension |
| CmdtoolOutputs.ComplexTupleAt | janis_core/translations/nextflow/generate/process/outputs/factory_cmdtool.py:344-388 | a complex tuple has one expression per extension, the quoted primary first |
| CmdtoolOutputs.PlanOutput | janis_core/translations/nextflow/generate/process/outputs/factory_cmdtool.py:141-388 | every output built is named and tagged after the tool output and carries its optionality; STDOUT gives the stdout output and NON_FILE the val output, no other kind does; the build fails exactly when a non-stdout strategy renders no collector, or a non-REFERENCE secondaries output has no extensions |
| CmdtoolOutputs.PlanFor | janis_core/translations/nextflow/generate/process/outputs/factory_cmdtool.py:115-147 | the whole planner: a built output keeps the tool output's name and optionality, is the stdout output exactly for a Stdout type and the val output exactly for a non-file type; once both classifications succeed it fails exactly in the cases PlanOutput fails |
| CmdtoolOutputs.UnsupportedShapesFail | janis_core/translations/nextflow/generate/process/outputs/factory_cmdtool.py:276-298 | secondaries arrays always fail; file-pair arrays succeed only with WILDCARD; file pairs only with WILDCARD or exactly two collectors |
| CmdtoolOutputs.TupleQualifiersMatchExpressions | janis_core/translations/nextflow/generate/process/outputs/factory_cmdtool.py:276-388 | every tuple output has one `path` qualifier per expression |
| CmdtoolOutputs.ReferenceSecondariesShape | janis_core/translations/nextflow/generate/process/outputs/factory_cmdtool.py:314-342 | around a REFERENCE primary, a caret extension gives `"*ext"` and any other `"${primary}ext"` |
| CmdtoolOutputs.ComplexSecondaries | janis_core/translations/nextflow/generate/process/outputs/factory_cmdtool.py:344-388 | the loop over the extensions yields one `path` per extension and the complex tuple |
| CmdtoolOutputs.ComplexSecondary | janis_core/translations/nextflow/generate/process/outputs/factory_cmdtool.py:360-382 | one iteration of the extension loop computes the complex secondary expression for that extension |
| Text.RFindIsLast | janis_core/translations/nextflow/generate/process/outputs/factory_cmdtool.py:351 | `rfind` answers -1 exactly when the primary extension does not occur, and no occurrence lies after the index it answers |
| CmdtoolOutputs.CmdtoolProcessOutputFactory.constructor | janis_core/translations/nextflow/generate/process/outputs/factory_cmdtool.py:115-139 | the factory keeps the output and its two classifications; both flags start false |
| CmdtoolOutputs.CmdtoolProcessOutputFactory.UnwrapCollectionExpression | janis_core/translations/nextflow/generate/process/outputs/factory_cmdtool.py:217-240 | the braces and quoting flags are set per kind, and the result is the quoted rendering |
| CmdtoolOutputs.CmdtoolProcessOutputFactory.FileOutput | janis_core/translations/nextflow/generate/process/outputs/factory_cmdtool.py:266-274 | a path output named after the output, carrying its optionality and rendered collector; afterwards the braces and quoting flags are those of the output's FmtType |
| CmdtoolOutputs.CmdtoolProcessOutputFactory.NonFileOutput | janis_core/translations/nextflow/generate/process/outputs/factory_cmdtool.py:256-264 | a val output named after the output, carrying its optionality and rendered collector; afterwards the braces and quoting flags are those of the output's FmtType |
| CmdtoolOutputs.CmdtoolProcessOutputFactory.FilePairOutput | janis_core/translations/nextflow/generate/process/outputs/factory_cmdtool.py:276-291 | the file-pair strategy agrees with the planner; the flags become those of the FmtType when a collector is rendered (WILDCARD or two collectors) and are unchanged otherwise |
| CmdtoolOutputs.CmdtoolProcessOutputFactory.FilePairArrayOutput | janis_core/translations/nextflow/generate/process/outputs/factory_cmdtool.py:293-298 | the file-pair-array strategy agrees with the planner; the flags become those of the FmtType for WILDCARD and are unchanged otherwise |
| CmdtoolOutputs.CmdtoolProcessOutputFactory.SecondariesOutputReference | janis_core/translations/nextflow/generate/process/outputs/factory_cmdtool.py:314-342 | the reference secondaries tuple: `path` qualifiers and the reference expressions; afterwards the flags are those of the FmtType |
| CmdtoolOutputs.ReferenceSecondaries | janis_core/translations/nextflow/generate/process/outputs/factory_cmdtool.py:319-333 | the primary and then one expression per further extension, with one `path` qualifier each |
| CmdtoolOutputs.CmdtoolProcessOutputFactory.SecondariesOutputComplex | janis_core/translations/nextflow/generate/process/outputs/factory_cmdtool.py:344-388 | the complex secondaries strategy agrees with the planner, including its failure on a type without extensions; afterwards the flags are those of the FmtType |
| CmdtoolOutputs.CmdtoolProcessOutputFactory.Create | janis_core/translations/nextflow/generate/process/outputs/factory_cmdtool.py:141-144 | dispatching through the strategy map gives the planner's output for the classification; the flags become those of the FmtType exactly when the chosen strategy renders a collector, and are unchanged otherwise |
| CmdtoolOutputs.NewFactory | janis_core/translations/nextflow/generate/process/outputs/factory_cmdtool.py:115-128 | construction fails exactly when either classification fails, with that error |
| TaskCall.OrderedTaskInputIds | janis_core/translations/nextflow/generate/workflow/call.py:49-56 | a process gives its inputs' ids, a workflow its takes' ids, anything else a RuntimeError |
| TaskCall.DestScatter | janis_core/translations/nextflow/generate/workflow/call.py:152-156 | true exactly when the step scatters and the task input is one of its scatter fields; never for a step without scatter |
| TaskCall.SrcType | janis_core/translations/nextflow/generate/workflow/call.py:128-138 | None exactly without a truthy source; a truthy source whose type cannot be traced fails the `assert(dtype)` as AssertionFailed; a Stdout source type is narrowed to its subtype, any other is kept |
| TaskCall.UntracedSourceFails | janis_core/translations/nextflow/generate/workflow/call.py:128-182 | an argument fails the type assertion exactly when its source is truthy, no edge case applies and its type cannot be traced |
| TaskCall.ArgumentHasAtMostOneSuffix | janis_core/translations/nextflow/generate/workflow/call.py:157-182 | an argument is the unwrapped text (`null` for None) with at most one suffix, and the edge-case suffix takes priority over the mismatch plumbing |
| TaskCall.NoneArgumentIsNull | janis_core/translations/nextflow/generate/workflow/call.py:165-166 | an argument unwrapped to None with no source is `null` |
| TaskCall.ListArgumentFails | janis_core/translations/nextflow/generate/workflow/call.py:168-169 | an argument fails as not implemented exactly when it unwraps to a list |
| TaskCall.TaskCallArgumentGenerator.constructor | janis_core/translations/nextflow/generate/workflow/call.py:112-122 | the generator keeps the input id, the step and the environment |
| TaskCall.TaskCallArgumentGenerator.Generate | janis_core/translations/nextflow/generate/workflow/call.py:157-182 | generate() gives the argument for its task input |
| TaskCall.CallArgumentsOnePerId | janis_core/translations/nextflow/generate/workflow/call.py:63-77 | one argument per ordered id, the k-th for the k-th id |
| TaskCall.CallArgumentsFailIffSomeArgumentFails | janis_core/translations/nextflow/generate/workflow/call.py:63-68 | the call arguments succeed exactly when every argument does |
| TaskCall.CallArgumentsStopAtError | janis_core/translations/nextflow/generate/workflow/call.py:66-68 | once an argument fails, the whole list fails with that error |
| TaskCall.CallLayout | janis_core/translations/nextflow/generate/workflow/call.py:89-107 | no arguments give `alias()`; otherwise `alias(`, one line per argument, `)` |
| TaskCall.ArgLinesLayout | janis_core/translations/nextflow/generate/workflow/call.py:100-107 | each argument line is indented, and all but the last end with a comma |
| TaskCall.IndentAll | janis_core/translations/nextflow/generate/workflow/call.py:94 | one line out per line in, each indented by the prefix or left alone |
| TaskCall.IndentZeroIsIdentity | janis_core/translations/nextflow/generate/workflow/call.py:89-94 | at the default indentation level the lines are unchanged |
| TaskCall.TaskCallGenerator.constructor | janis_core/translations/nextflow/generate/workflow/call.py:36-47 | the generator starts with no arguments and no call lines |
| TaskCall.TaskCallGenerator.GetCallArguments | janis_core/translations/nextflow/generate/workflow/call.py:63-77 | the arguments of the ordered task inputs, or the RuntimeError of an unknown task |
| TaskCall.TaskCallGenerator.CallFmt2 | janis_core/translations/nextflow/generate/workflow/call.py:100-107 | the call lines for a non-empty argument list |
| TaskCall.TaskCallGenerator.FormatTaskCall | janis_core/translations/nextflow/generate/workflow/call.py:89-95 | the call lines indented by the requested level |
| TaskCall.TaskCallGenerator.Generate | janis_core/translations/nextflow/generate/workflow/call.py:58-61 | stores the arguments and the call lines and returns the call |
| NextflowLegacy.NestExtensionsShape | janis_core/translations/nextflow.py:406-407 | stripping n extensions opens n braces, then the name, then `%ext}` per extension in order |
| NextflowLegacy.TranslateInputSelectorSteps | janis_core/translations/nextflow.py:365-441 | the loop of translate_input_selector computes the selector's translation |
| NextflowLegacy.WrapExtensions | janis_core/translations/nextflow.py:406-407 | the loop wraps the selector once per extension, the first extension innermost |
| NextflowLegacy.ChainReplaces | janis_core/translations/nextflow.py:423-424 | the loop chains one `.replace(/ext$/, "")` per extension, in order |
| NextflowLegacy.InputSelectorResolution | janis_core/translations/nextflow.py:374-394 | an empty name fails; `runtime_` names and skipped lookups give the overridden name; otherwise a missing dictionary or key fails |
| NextflowLegacy.ExtensionStripping | janis_core/translations/nextflow.py:396-409 | with remove_file_extension on a File with extensions, the name is nested once per extension inside `(basename "$...")` |
| NextflowLegacy.PrepareFilenameReplacementsFor | janis_core/translations/nextflow.py:315-362 | the `base +=` loop computes the filename replacement |
| NextflowLegacy.OptionalReplacementFallsBack | janis_core/translations/nextflow.py:357-360 | an optional input's replacement falls back to `"generated"` |
| NextflowLegacy.UnwrapExpression | janis_core/translations/nextflow.py:123-137 | in a code environment every success is some text; None results exactly for a None value outside one |
| NextflowLegacy.ScalarRendering | janis_core/translations/nextflow.py:190-209 | strings are single-quoted and integers printed; None is `null` in a code environment and absent outside one; a Filename gives its generated name, double-quoted in a code environment |
| NextflowLegacy.RefusedValues | janis_core/translations/nextflow.py:139-143 | step nodes, wildcard selectors and values of no known kind are refused |
| NextflowLegacy.ListRendering | janis_core/translations/nextflow.py:145-189 | a list renders as its elements unwrapped in a code environment, `path(...)`-wrapped for an output, joined by `, `; it fails exactly when an element does |
| NextflowLegacy.PrepareScriptForTool | janis_core/translations/nextflow.py:558-588 | the script is the base command and the placed items rendered in sorted order |
| NextflowLegacy.ScriptItemOrder | janis_core/translations/nextflow.py:570-572 | the items are the placed arguments and inputs, ascending by position (None as 0); at equal position, arguments precede inputs, each in declaration order |
| NextflowLegacy.BuildInputsFile | janis_core/translations/nextflow.py:444-494 | the inputs map is built from one entry per tool input |
| NextflowLegacy.InputsFileEntry | janis_core/translations/nextflow.py:467-482 | one input's value: a generated name, a provided value, the next placeholder path, or `''`; the counter grows only for a placeholder |
| NextflowLegacy.InputsFileEntriesAt | janis_core/translations/nextflow.py:467-482 | the k-th entry is the k-th input's id and value |
| NextflowLegacy.PlaceholdersNumberedInOrder | janis_core/translations/nextflow.py:465-478 | placeholder numbers start at 1 and strictly increase in input order, so no two inputs share one |
| NextflowLegacy.PrepareToolOutput | janis_core/translations/nextflow.py:591-621 | the output map is built from one entry per output |
| NextflowLegacy.ToolOutputKeys | janis_core/translations/nextflow.py:591-621 | every output tag has an entry and nothing else does |
| NextflowLegacy.PrepareOptionalInputs | janis_core/translations/nextflow.py:641-666 | one `WithPrefix` definition per input, in order |
| NextflowLegacy.OptionalInputBinding | janis_core/translations/nextflow.py:651-658 | a required scalar is bound to itself and a required array to `v.join(' ')`; an optional scalar is bound to `optional(v, 'prefix')` and an optional array to `optional(v.join(' '), 'prefix')`, each with `''` when it has no prefix |
| NextflowLegacy.PrepareExpressionInputs | janis_core/translations/nextflow.py:624-638 | one definition per Filename input, in order |
| NextflowLegacy.QualifiersAgree | janis_core/translations/nextflow.py:669-699 | an array output is a `tuple` and a Stdout output `stdout`, in that order of precedence; an input is a path exactly when its base type is a file; a non-array output is a path or stdout exactly when it would be a path input |
| TaskInputs.CreateEachOnePerInput | janis_core/translations/nextflow/generate/process/inputs.py:63-66 | the input loop of both generators yields one value per input, the k-th created from the k-th |
| TaskInputs.CreateEachStep | janis_core/translations/nextflow/generate/process/inputs.py:63-66 | one more input appends its created value, or its error ends the list |
| TaskInputs.CreateEachStopsAtError | janis_core/translations/nextflow/generate/process/inputs.py:63-66 | once a prefix of the inputs fails, the whole list fails with the same error |
| TaskInputs.ItemsWithIdMembers | janis_core/translations/nextflow/generate/process/inputs.py:60-61 | the items whose id is selected, and only those |
| GenerateProcessInputs.KindsFollowTypes | janis_core/translations/nextflow/generate/process/inputs.py:70-105 | the cascade gives a tuple exactly for secondaries, a path exactly for other file types, a val exactly for non-file types |
| GenerateProcessInputs.CreatedInputShape | janis_core/translations/nextflow/generate/process/inputs.py:107-151 | inputs keep their id and type; a tuple has one `path` per sub-name; the registry must hold a list for a tuple and one name otherwise; the presents_as refusal is unreachable |
| GenerateProcessInputs.CreateAllOnePerInput | janis_core/translations/nextflow/generate/process/inputs.py:58-68 | one process input per tool input, the k-th from the k-th |
| GenerateProcessInputs.CreateAllStopsAtError | janis_core/translations/nextflow/generate/process/inputs.py:63-66 | the first failing tool input fails the whole list with its error |
| GenerateProcessInputs.ProcessInputGenerator.constructor | janis_core/translations/nextflow/generate/process/inputs.py:33-56 | a Python tool starts with its code-file input, any other tool with none |
| GenerateProcessInputs.ProcessInputGenerator.CreateInput | janis_core/translations/nextflow/generate/process/inputs.py:70-105 | create_input applies the cascade to the current tool input |
| GenerateProcessInputs.ProcessInputGenerator.Generate | janis_core/translations/nextflow/generate/process/inputs.py:58-68 | the generated inputs follow the selected tool inputs, in order |
| GenerateProcessInputs.ProcessInputGenerator.AppendInputs | janis_core/translations/nextflow/generate/process/inputs.py:63-66 | each tool input in turn is appended as its process input; the first failure stops the loop with that error |
| ParsingProcessInputs.CascadesAgree | janis_core/translations/nextflow/parsing/process/inputs.py:47-91 | this cascade classifies every type as the generator's cascade does; its file-pair-array test is the array file-pair test |
| ParsingProcessInputs.CreatedInputShape | janis_core/translations/nextflow/parsing/process/inputs.py:93-132 | a tuple has one `path` per sub-name; other inputs take the registry's name; success depends only on the registry value's shape |
| ParsingProcessInputs.CreateAllOnePerInput | janis_core/translations/nextflow/parsing/process/inputs.py:37-45 | one process input per ordered tool input |
| ParsingProcessInputs.Generate | janis_core/translations/nextflow/parsing/process/inputs.py:37-45 | generate() builds the inputs of the ordered tool inputs |
| ParsingProcessInputs.StopsAtError | janis_core/translations/nextflow/parsing/process/inputs.py:43-44 | the first failing tool input fails the whole list |
| ProcessFactory.ShouldAddJsonSlurper | janis_core/translations/nextflow/process/factory.py:48-53 | true exactly when some output's selector uses ReadJsonOperator |
| ProcessFactory.GenImportsForProcess | janis_core/translations/nextflow/process/factory.py:35-46 | the JsonSlurper imports block exactly when the slurper is needed, else none |
| ProcessFactory.ShouldAddGetPrimaryFiles | janis_core/translations/nextflow/process/factory.py:66-71 | true exactly when some input is an array of files with secondaries |
| ProcessFactory.GenFunctionsForProcess | janis_core/translations/nextflow/process/factory.py:55-64 | the get_primary_files block exactly when it is needed, else none |
| ProcessFactory.VarRef | janis_core/translations/nextflow/process/factory.py:220 | a variable reference is `${`, the name, `}` |
| ProcessFactory.PythonArgumentRules | janis_core/translations/nextflow/process/factory.py:211-238 | a fed input refers to its variable: arrays are split, numbers and booleans bare, the rest quoted; a variable list must be non-empty and its first name is rendered in the same way; an unfed input takes its default, then None when optional, and fails exactly when it has neither |
| ProcessFactory.PythonArgumentsInOrder | janis_core/translations/nextflow/process/factory.py:211-238 | one argument per input, in order |
| ProcessFactory.PrepareScriptArguments | janis_core/translations/nextflow/process/factory.py:209-240 | the arguments joined by `, `, or the first failure |
| ProcessFactory.ArgumentsStopAtError | janis_core/translations/nextflow/process/factory.py:211-231 | the first failing input fails the script |
| ProcessFactory.CodeToolProcessShape | janis_core/translations/nextflow/process/factory.py:151-170 | the process is named after the scope only in a labelled scope; its inputs are the code file, then one per tool input |
| StableSort.SortBySortedAndStable | janis_core/ingestion/galaxy/gx/gxtool/metadata.py:52 | the sort orders by key and keeps the original order among equal keys |
| StableSort.SortByHead | janis_core/ingestion/galaxy/model/tool/outputs.py:69-70 | the head of the sorted list is the first element with the least key |
| WdlLowering.ZipTextFlat | janis_core/tests/test_translation_wdl.py:753-836 | the nested zip of n sources, written flat, is the openings, the last source and n-1 closing parentheses |
| WdlLowering.ProjectionSelectsField | janis_core/tests/test_translation_wdl.py:753-836 | each field's `.left`/`.right` path reaches exactly that field in the nested zip |
| WdlLowering.ProjectionTextShape | janis_core/tests/test_translation_wdl.py:779-805 | field k is `Q` with k `.right` then `.left`; the last field is `Q` with n-1 `.right` |
| WdlLowering.SecondaryTransposition | janis_core/tests/test_translation_wdl.py:838-863 | a file with one secondary iterates over `transpose([inp, inp_qt])` and binds elements [0] and [1] |
| WdlLowering.ScatterShape | janis_core/tests/test_translation_wdl.py:707-836 | one field iterates as `i` over its source; several fields iterate as `Q` over their zip, and each field's projection reaches its source |
| WdlLowering.BindingLines | janis_core/tests/test_translation_wdl.py:753-777 | each binding line is indented, and all but the last end with a comma |
| WdlLowering.EnvironmentsAgree | janis_core/tests/test_translation_wdl.py:178-247 | both environments succeed or fail together; strings, filenames and formatters gain double quotes outside a string environment; selectors lose `~{...}` there; None, numbers, booleans and wdl attributes render the same |
| WdlLowering.UnwrapOutcomes | janis_core/tests/test_translation_wdl.py:194-330 | None gives the empty text; a wildcard fails; a wdl attribute succeeds exactly when callable; a selector fails exactly when its input is missing or has a default that cannot be rendered |
| WdlLowering.LiteralAgreesWithUnwrap | janis_core/tests/test_translation_wdl.py:576-600 | defaults are rendered as they unwrap outside a string environment |
| WdlLowering.FormatterWithoutPlaceholders | janis_core/tests/test_translation_wdl.py:332-335 | a formatter with no placeholder keeps its text |
| WdlLowering.ReplaceAllAbsent | janis_core/tests/test_translation_wdl.py:332-340 | a text with no occurrence of the placeholder is left unchanged by the replacement |
| WdlLowering.ReplaceAllSkips | janis_core/tests/test_translation_wdl.py:337-388 | replacing a placeholder copies unchanged any leading text that does not contain the placeholder's first character |
| WdlLowering.ReplaceAllHit | janis_core/tests/test_translation_wdl.py:337-388 | an occurrence of the placeholder at the front is replaced and the replacement continues after it |
| WdlLowering.ReplaceAllMiss | janis_core/tests/test_translation_wdl.py:337-388 | a front of the placeholder's length that differs from it keeps its first character and the replacement continues one character later |
| WdlLowering.OptionalInputShape | janis_core/tests/test_translation_wdl.py:548-574 | an optional non-flag input is a String and reads exactly `~{if defined(name) then ("pre sep'" + name + "'") else ""}`, with sep a space when separated and empty otherwise |
| WdlLowering.BooleanInputShape | janis_core/tests/test_translation_wdl.py:634-639 | an optional Boolean flag emits its prefix alone when defined |
| WdlLowering.RequiredInputShape | janis_core/tests/test_translation_wdl.py:531-546 | a required input without a prefix is `~{name}`; with one it starts with the prefix (then a space when separated) and ends with `~{name}` and the type's closing quote |
| WdlLowering.TranslateCommandInput | janis_core/tests/test_translation_wdl.py:576-639 | a default makes the input read `select_first([tag, default])`; String inputs of every kind, required Int inputs with a prefix and optional Boolean flags with a prefix are rendered, and every other shape is None |
| WdlLowering.EdgeValue | janis_core/tests/test_translation_wdl.py:163-174 | a scalar source feeding an array input is wrapped in one pair of brackets; otherwise it is unchanged |
| WdlCommandExamples.NoDefaultRequiredPosition | janis_core/tests/test_translation_wdl.py:531-534 | `~{tag}` |
| WdlCommandExamples.NoDefaultRequiredPrefix | janis_core/tests/test_translation_wdl.py:536-539 | `--amazing '~{tag}'` |
| WdlCommandExamples.NoDefaultRequiredPrefixNoSeparator | janis_core/tests/test_translation_wdl.py:541-546 | `--amazing='~{tag}'` |
| WdlCommandExamples.NoDefaultOptionalPosition | janis_core/tests/test_translation_wdl.py:548-552 | `~{if defined(tag) then ("'" + tag + "'") else ""}` |
| WdlCommandExamples.NoDefaultOptionalPrefix | janis_core/tests/test_translation_wdl.py:554-559 | `~{if defined(tag) then ("--amazing '" + tag + "'") else ""}` |
| WdlCommandExamples.NoDefaultOptionalPrefixNoSeparator | janis_core/tests/test_translation_wdl.py:561-574 | `~{if defined(tag) then ("--amazing='" + tag + "'") else ""}` |
| WdlCommandExamples.DefaultRequiredPosition | janis_core/tests/test_translation_wdl.py:576-580 | `~{select_first([tag, "defval"])}` |
| WdlCommandExamples.DefaultRequiredPrefix | janis_core/tests/test_translation_wdl.py:582-587 | `--amazing '~{select_first([tag, "defval"])}'` |
| WdlCommandExamples.DefaultRequiredPrefixNoSeparator | janis_core/tests/test_translation_wdl.py:589-600 | `--amazing='~{select_first([tag, "defval"])}'` |
| WdlCommandExamples.DefaultOptionalPosition | janis_core/tests/test_translation_wdl.py:602-607 | `~{if defined(select_first([tag, "defval"])) then ("'" + select_first([tag, "defval"]) + "'") else ""}` |
| WdlCommandExamples.DefaultOptionalPrefix | janis_core/tests/test_translation_wdl.py:609-616 | `~{if defined(select_first([tag, "defval"])) then ("--amazing '" + select_first([tag, "defval"]) + "'") else ""}` |
| WdlCommandExamples.DefaultOptionalPrefixNoSeparator | janis_core/tests/test_translation_wdl.py:618-632 | `~{if defined(select_first([tag, "defval"])) then ("--amazing='" + select_first([tag, "defval"]) + "'") else ""}` |
| WdlCommandExamples.BooleanDefault | janis_core/tests/test_translation_wdl.py:634-639 | `~{if defined(select_first([tag, true])) then "--amazing" else ""}` |
| WdlCommandExamples.CpuDefault | janis_core/tests/test_translation_wdl.py:280-287 | `-t ~{select_first([threads, select_first([runtime_cpu, 1])])}` |
| WdlCommandExamples.CpuDefaultWithoutCount | janis_core/tests/test_translation_wdl.py:289-294 | `-t ~{select_first([threads, runtime_cpu])}` |
| WdlExamples.ScalarValues | janis_core/tests/test_translation_wdl.py:194-231 | None, a string and 42 in both environments |
| WdlExamples.InputSelectorValues | janis_core/tests/test_translation_wdl.py:178-192 | `~{random}` in a string environment, `random` outside |
| WdlExamples.RefusedValues | janis_core/tests/test_translation_wdl.py:249-330 | a wildcard and a non-callable wdl attribute fail; a callable one gives its text |
| WdlExamples.FormatterWithoutArguments | janis_core/tests/test_translation_wdl.py:332-335 | `no format` stays as it is |
| WdlExamples.FormatterWithStringArgument | janis_core/tests/test_translation_wdl.py:337-340 | `there's a string arg` |
| WdlExamples.FormatterWithSelectorArgument | janis_core/tests/test_translation_wdl.py:342-346 | `an input ~{random_input}` |
| WdlExamples.FormatterWithTwoArguments | janis_core/tests/test_translation_wdl.py:348-360 | `~{tumorInputName}:~{normalInputName}` |
| WdlExamples.FormatterWithDefaultedSelector | janis_core/tests/test_translation_wdl.py:375-379 | `~{select_first([ti, "hi"])} michael` |
| WdlExamples.FormatterWithFilenameSelector | janis_core/tests/test_translation_wdl.py:381-388 | outside a string environment, `"fn: ~{select_first([ti, "<generated filename>"])}"` |
| WdlExamples.ScalarToArrayEdge | janis_core/tests/test_translation_wdl.py:163-174 | `arrayInp=[stp1.std]` |
| WdlExamples.SingleFieldScatter | janis_core/tests/test_translation_wdl.py:707-728 | one field: `i in inp` and `inputs=i` |
| WdlExamples.TwoFieldScatterHeader | janis_core/tests/test_translation_wdl.py:753-777 | `Q in zip(inp1, inp2)` |
| WdlExamples.TwoFieldScatterBindings | janis_core/tests/test_translation_wdl.py:753-777 | the fields bind to `Q.left` and `Q.right` |
| WdlExamples.FourFieldScatterHeader | janis_core/tests/test_translation_wdl.py:807-836 | `Q in zip(inp, zip(inp2, zip(inp3, inp4)))` |
| WdlExamples.FourFieldScatterBindings | janis_core/tests/test_translation_wdl.py:807-836 | `inputs=Q.left`, `input2=Q.right.left`, `input3=Q.right.right.left`, `input4=Q.right.right.right` |
| WdlExamples.ThreeFieldScatterBindings | janis_core/tests/test_translation_wdl.py:779-805 | the fields bind to `Q.left`, `Q.right.left` and `Q.right.right` |
| WdlExamples.SecondaryFieldScatterHeader | janis_core/tests/test_translation_wdl.py:838-863 | `Q in zip(transpose([inp, inp_qt]), inp2)` |
| WdlExamples.SecondaryFieldScatterBindings | janis_core/tests/test_translation_wdl.py:838-863 | `input1=Q.left[0]`, `input1_qt=Q.left[1]`, `input2=Q.right` |
| GalaxyOutputs.Appended | janis_core/ingestion/galaxy/model/tool/outputs.py:35 | appending to one kind of the defaultdict extends that kind only; a key exists once something is appended |
| GalaxyOutputs.XmlGet | janis_core/ingestion/galaxy/model/tool/outputs.py:77 | the lookup finds a param of that name, and finds none only when none exists |
| GalaxyOutputs.StepWhitelistMembers | janis_core/ingestion/galaxy/model/tool/outputs.py:74-79 | with a step, the whitelist holds exactly the XML params the step names |
| GalaxyOutputs.ShouldCreateInputOutput | janis_core/ingestion/galaxy/model/tool/outputs.py:131-136 | true exactly for a non-flag component attached to a whitelisted name |
| GalaxyOutputs.ShouldCreateWildcardOutput | janis_core/ingestion/galaxy/model/tool/outputs.py:138-144 | true exactly when the param has a from_work_dir or a discover_pattern that is not None |
| GalaxyOutputs.UncertainCandidates | janis_core/ingestion/galaxy/model/tool/outputs.py:125-128 | one unverified wildcard output per whitelisted param, in order |
| GalaxyOutputs.InputCandidatesMembers | janis_core/ingestion/galaxy/model/tool/outputs.py:114-123 | the input outputs are built from exactly the components that qualify |
| GalaxyOutputs.WildcardCandidatesMembers | janis_core/ingestion/galaxy/model/tool/outputs.py:83-94 | the wildcard outputs are built from exactly the params that qualify |
| GalaxyOutputs.LastMatchIsLast | janis_core/ingestion/galaxy/model/tool/outputs.py:107-112 | an unlinked redirect is linked to the last param whose discover_pattern is its most common value, or to none |
| GalaxyOutputs.LinkRedirect | janis_core/ingestion/galaxy/model/tool/outputs.py:107-112 | a linked redirect is kept; an unlinked one fails with AttributeError when a whitelisted param lacks the discover_pattern attribute; a success is a redirect with the same most common value |
| GalaxyOutputs.RedirectCandidatesLinked | janis_core/ingestion/galaxy/model/tool/outputs.py:101-105 | every kept redirect is linked |
| GalaxyOutputs.RedirectsStopAtError | janis_core/ingestion/galaxy/model/tool/outputs.py:102-103 | the first redirect that fails to link fails the gathering with its error |
| GalaxyOutputs.RedirectErrorIsAttributeError | janis_core/ingestion/galaxy/model/tool/outputs.py:107-112 | the only failure of linking is the missing attribute |
| GalaxyOutputs.NamedMembers | janis_core/ingestion/galaxy/model/tool/outputs.py:53-56 | the candidates of a name are exactly the components attached to it |
| GalaxyOutputs.ChosenMeaning | janis_core/ingestion/galaxy/model/tool/outputs.py:65-70 | a choice is attached to its name, and exists exactly when a candidate of that name does |
| GalaxyOutputs.PossibleHead | janis_core/ingestion/galaxy/model/tool/outputs.py:68-70 | the head of the candidates stably sorted by priority is the first redirect, else the first input, wildcard or uncertain output |
| GalaxyOutputs.NoCandidateNoChoice | janis_core/ingestion/galaxy/model/tool/outputs.py:68-70 | without candidates there is nothing to choose |
| GalaxyOutputs.ChooseAllMeaning | janis_core/ingestion/galaxy/model/tool/outputs.py:65-72 | one choice per whitelisted param, in order, or failure at the first without one |
| GalaxyOutputs.Prioritised | janis_core/ingestion/galaxy/model/tool/outputs.py:47-72 | an unlinked candidate raises AssertionError; otherwise success exactly when every whitelisted name has a candidate, else IndexError; each chosen output is the choice for its param |
| GalaxyOutputs.GatheredOutputs | janis_core/ingestion/galaxy/model/tool/outputs.py:40-43 | the four gathering steps append the input, wildcard, redirect and uncertain candidates under their kinds |
| GalaxyOutputs.GatheredLinked | janis_core/ingestion/galaxy/model/tool/outputs.py:40-43 | gathering adds only linked candidates |
| GalaxyOutputs.GatheredPrioritises | janis_core/ingestion/galaxy/model/tool/outputs.py:37-45 | after gathering, prioritising succeeds with one output per whitelisted param, each attached to that param's name |
| GalaxyOutputs.OutputExtractor.constructor | janis_core/ingestion/galaxy/model/tool/outputs.py:25-35 | the extractor starts with an empty whitelist and an empty dictionary |
| GalaxyOutputs.OutputExtractor.DefineWhitelistedOutputs | janis_core/ingestion/galaxy/model/tool/outputs.py:74-81 | with a step, appends the XML params the step names; without one, takes every XML output |
| GalaxyOutputs.OutputExtractor.GatherInputOutputs | janis_core/ingestion/galaxy/model/tool/outputs.py:114-123 | appends the input outputs under `input` |
| GalaxyOutputs.OutputExtractor.GatherWildcardOutputs | janis_core/ingestion/galaxy/model/tool/outputs.py:83-94 | appends the wildcard outputs under `wildcard` |
| GalaxyOutputs.OutputExtractor.AttemptRedirectGxparamLink | janis_core/ingestion/galaxy/model/tool/outputs.py:107-112 | the loop over the whitelist computes the redirect's link |
| GalaxyOutputs.OutputExtractor.GatherRedirectOutputs | janis_core/ingestion/galaxy/model/tool/outputs.py:96-105 | appends the linked redirects under `redirect`, or reports the linking error |
| GalaxyOutputs.OutputExtractor.GatherUncertainOutputs | janis_core/ingestion/galaxy/model/tool/outputs.py:125-128 | appends one uncertain output per whitelisted param under `uncertain` |
| GalaxyOutputs.OutputExtractor.PrioritiseOutputs | janis_core/ingestion/galaxy/model/tool/outputs.py:47-72 | the lookup-table and sorting loops compute the prioritised outputs |
| GalaxyOutputs.OutputExtractor.Extract | janis_core/ingestion/galaxy/model/tool/outputs.py:37-45 | the whitelist, then gathering, then prioritising; a redirect linking error stops it; when the extractor starts with linked candidates and every redirect links, it succeeds with one output per whitelisted param, carrying that param's name |
| GalaxyMapping.ToJanisDatatypeShape | janis_core/ingestion/galaxy/janis_mapping/general.py:43-61 | a KeyError exactly for a class missing from the table; otherwise the table's type, wrapped in Array and then Stdout, with only the outermost node optional |
| GalaxyMapping.MarkOptionalOuterOnly | janis_core/ingestion/galaxy/janis_mapping/general.py:58-60 | setting `optional` changes the outermost node only: layers, innermost type and inner flags are kept |
| GalaxyMapping.StepOutputTypedAsToolOutput | janis_core/ingestion/galaxy/janis_mapping/general.py:44-45 | a step output is typed as its tool output |
| GalaxyMapping.ArrayRedirectShape | janis_core/ingestion/galaxy/janis_mapping/general.py:50-56 | an array redirect is `Stdout(Array(base))` |
| GalaxyMapping.ToJanisSelectorRules | janis_core/ingestion/galaxy/janis_mapping/general.py:64-81 | a truthy from_work_dir wins, then a truthy discover_pattern; otherwise an input output selects its input's tag, anything else the `unknown` wildcard |
| GalaxyMapping.ToJanisSelectorAsWritten | janis_core/ingestion/galaxy/janis_mapping/general.py:64-81 | as written, the selector fails exactly when the param has a falsy from_work_dir attribute and no discover_pattern attribute, and the failure is AttributeError |
| GalaxyMapping.AsWrittenIgnoresPatternWithoutFromWorkDir | janis_core/ingestion/galaxy/janis_mapping/general.py:66-72 | as written, without a from_work_dir attribute the selector is the one for no wildcard, while the corrected rule uses a truthy discover_pattern |
| GalaxyMapping.AsWrittenFailsWithoutPatternAttribute | janis_core/ingestion/galaxy/janis_mapping/general.py:69 | as written, a falsy from_work_dir attribute without a discover_pattern attribute raises AttributeError; the corrected rule falls back to the selector for no wildcard |
| GalaxyMapping.AsWrittenAgreesWithBothAttributes | janis_core/ingestion/galaxy/janis_mapping/general.py:66-72 | when the param has both attributes, the code as written and the corrected rule agree |
| GalaxyMapping.AsWrittenIgnoresDiscoverPattern | janis_core/ingestion/galaxy/janis_mapping/general.py:69 | as written, a discover_pattern without from_work_dir is ignored |
| GalaxyMapping.AsWrittenFailsWithoutDiscoverPattern | janis_core/ingestion/galaxy/janis_mapping/general.py:69 | as written, a None from_work_dir without a discover_pattern attribute raises AttributeError |
| GalaxyMetadata.OfKind | janis_core/ingestion/galaxy/gx/gxtool/metadata.py:65-67 | the citations of one type, all drawn from the list |
| GalaxyMetadata.OfKindFirst | janis_core/ingestion/galaxy/gx/gxtool/metadata.py:65-67 | the filtered list is empty exactly when no citation has the type, and otherwise starts with the first one |
| GalaxyMetadata.ToolXMLMetadata.constructor | janis_core/ingestion/galaxy/gx/gxtool/metadata.py:15-26 | the dataclass fields; creator, url and owner default to None |
| GalaxyMetadata.ToolXMLMetadata.SetUrlAsWritten | janis_core/ingestion/galaxy/gx/gxtool/metadata.py:28-29 | as written, set_url stores the value in owner and leaves url unchanged |
| GalaxyMetadata.ToolXMLMetadata.SetUrl | janis_core/ingestion/galaxy/gx/gxtool/metadata.py:28-29 | corrected, set_url stores the value in url and leaves owner unchanged |
| GalaxyMetadata.ToolXMLMetadata.SetOwner | janis_core/ingestion/galaxy/gx/gxtool/metadata.py:31-32 | set_owner stores the value in owner and changes nothing else |
| GalaxyMetadata.ToolXMLMetadata.VersionedId | janis_core/ingestion/galaxy/gx/gxtool/metadata.py:34-36 | the id, a dash and the version, each recoverable from the result |
| GalaxyMetadata.ToolXMLMetadata.GetReqSimilarityScores | janis_core/ingestion/galaxy/gx/gxtool/metadata.py:56-61 | exactly one score per requirement, in order: the alignment of its name against the tool id |
| GalaxyMetadata.ToolXMLMetadata.MainRequirement | janis_core/ingestion/galaxy/gx/gxtool/metadata.py:38-54 | None exactly without requirements; otherwise a requirement with maximal score, the first such in list order |
| GalaxyMetadata.ToolXMLMetadata.MainCitation | janis_core/ingestion/galaxy/gx/gxtool/metadata.py:63-74 | the first biotools citation, else the first doi, else the first bibtex, else `tool xml missing citation` |
| GalaxyMetadata.ToolXMLMetadata.DoiCitation | janis_core/ingestion/galaxy/gx/gxtool/metadata.py:76-81 | None exactly without a doi citation; otherwise the first doi citation's text |
| GalaxyMetadata.MainCitationIsDoi | janis_core/ingestion/galaxy/gx/gxtool/metadata.py:63-81 | without biotools citations, the main citation is the doi citation whenever there is one |
| GalaxyMetadata.SetUrlAsWrittenExample | janis_core/ingestion/galaxy/gx/gxtool/metadata.py:28-29 | on fresh metadata, set_url as written leaves url None and fills owner |
| GalaxyMetadata.SetUrlExample | janis_core/ingestion/galaxy/gx/gxtool/metadata.py:28-29 | on fresh metadata, the corrected set_url fills url and leaves owner None |

## Left out

- Code that is not part of this model becomes a function-typed parameter or given data: `translation_utils`, `unwrap_expression` of the current generator, `trace_entity_counts`, `task_inputs` and `data_sources`, `trace.trace_source_datatype` (a parameter that may find no type, which `srctype`'s assertion rejects), `apply_secondary_file_format_to_filename`, the edge-case and datatype-mismatch helpers, `Operator.to_nextflow`, `translate_string_formatter`, the tag registry, and `global_align`. Only what the modelled code reads from them is assumed.
- The `translation_utils` predicates are reconstructed from their names and uses. Stdout and Stderr count as File subclasses, as in Janis.
- The WDL translator module is not part of this model. `WdlLowering` captures only the behaviour its tests fix.
- WdlLowering.TranslateCommandInput: renders String inputs of every kind, required Int inputs with a prefix and optional Boolean flags with a prefix, the shapes the tests fix; every other shape (an unprefixed Int, a required Boolean, a File, an array) gives None, because the translator's rule for it is not part of this model.
- Long expected strings of the WDL scatter tests are proved by shape lemmas, with the literal split into pieces.
- Logging, warnings and `print()` calls are left out.
- Deep copies are implicit, because Dafny values are immutable.
- GalaxyOutputs.OutputExtractor.AttemptRedirectGxparamLink: the link is returned as a new value. The source writes `gxparam` on the Command's redirect object in place, and that aliasing is not modelled.
- The component factories (`factory.input_output`, `wildcard_output`, `uncertain_output`) are not part of this model. Their results are taken to be the input, verified wildcard and unverified wildcard outputs attached to the param.
- An empty `gxstep` dictionary is falsy in the source and is modelled as an absent step.
- `xmltool.outputs.get` is taken as a registry keyed by name, with unique names; XmlGet returns the first match.
- The iteration order of the output kinds in `prioritise_outputs` is fixed as input, wildcard, redirect, uncertain. The stable priority sort makes the choice independent of that order, because each kind has its own priority.
- GalaxyMetadata.ToolXMLMetadata.MainRequirement: the source sorts its local score list in place. The model sorts a copy with the stable `StableSort.SortBy`, so the in-place update of that local list is not modelled.
- Requirement: conda and container requirements are one datatype with a name and a version, because the rules read only the name.
- NextflowLegacy.UnwrapExpression: a `ResourceSelector` and the commented-out branches are not modelled.
- Unbounded integers and reals stand for Python's `int` and `float`, and alignment scores are compared as reals. Python has no overflow here, and float rounding is not modelled.

## Findings

| source | as written | input that shows it | evidently intended | confidence | as-written member | corrected member |
|---|---|---|---|---|---|---|
| janis_core/ingestion/galaxy/janis_mapping/general.py:69 | the discover_pattern branch tests `hasattr(gxparam, 'from_work_dir')` and then reads `discover_pattern` | a param with `discover_pattern='*.bam'` and no from_work_dir attribute gets `WildcardSelector('unknown')`; a param with `from_work_dir=None` and no discover_pattern attribute raises AttributeError | test `hasattr(gxparam, 'discover_pattern')`, so the pattern becomes the wildcard | medium, not executed | GalaxyMapping.AsWrittenIgnoresDiscoverPattern | GalaxyMapping.ToJanisSelector |
| janis_core/ingestion/galaxy/gx/gxtool/metadata.py:28-29 | `set_url` assigns `self.owner` | `set_url('https://github.com/galaxyproject/tools-iuc')` on fresh metadata leaves `url` None and sets `owner` | `set_url` assigns `self.url` | medium, not executed | GalaxyMetadata.SetUrlAsWrittenExample | GalaxyMetadata.ToolXMLMetadata.SetUrl |
