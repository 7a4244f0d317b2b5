# Batch processing of SciJava modules, modelled in Dafny

The SciJava batch processor runs one module (a script or a command) once per input file. It has four commands and two supporting pieces:

- **Batch input providers.** A `BatchInput` pairs a source type with a module item. A `BatchInputProvider` plugin can fill such an item from batch values. `FileBatchInputProvider` fills items of type `File` and reads the item's widget style.
- **`FileBatchService`.** It finds the provider for a `(File, item)` pair, in priority order. It decides which inputs of a module are batchable, fills an input from a file, and launches the module batch processor.
- **`ModuleBatchProcessor`.** It chooses the input to vary and runs the module once per file. The outputs of each run go into one row of a result table. A task counts the progress. The batch stops when a run is interrupted or the task is cancelled.
- **`BatchProcessor`**, the older command. It offers the scripts with a single `File` input under readable names, sorted. It lists the files of a folder whose names end with an extension, and runs the chosen script per file. It writes outputs with a counter `i` that moves on once per value written.
- **`FileScriptBatchProcessor` and `MenuScriptBatchProcessor`.** They walk a folder, optionally with its subfolders, with a wildcard or regular-expression name filter. They report the count or a syntax error, then launch the module batch processor with the script and the files found.

The project has one module per part of the program:

| file | module | what it holds |
|---|---|---|
| `wrappers.dfy` | `Wrappers` | `Option`, Java's nullable references |
| `text.dfy` | `Text` | the `java.lang.String` behaviour the program relies on: `trim`, `split("\\s*,\\s*")`, `String.join`, `startsWith`/`endsWith`, ASCII `toLowerCase`, decimal rendering of an `int`, the `compareTo` order |
| `runtime.dfy` | `Runtime` | stand-ins for the module framework: items, infos, a live `Module` (class), a `Task` (class), what `future.get()` yields |
| `tables.dfy` | `Tables` | the result table as a value; `set` yields `None` where the table throws |
| `batch_input.dfy` | `BatchInputs` | `BatchInput` |
| `providers.dfy` | `Providers` | `BatchInputProvider`, `FileBatchInputProvider` |
| `services.dfy` | `Services` | `BatchService`, `FileBatchService` (class) |
| `module_batch.dfy` | `ModuleBatch` | the batch loop as the function `Batch`, and `ModuleBatchProcessor` (class) proved against it |
| `legacy_batch.dfy` | `LegacyBatch` | `BatchProcessor` (class): the loop as written (`Legacy`), the corrected loop (`Corrected`) and the finding below |
| `file_listing.dfy` | `FileListing` | `populateFileList` as the function `Collect`, and its recursive method |
| `script_batch.dfy` | `ScriptBatch` | `FileScriptBatchProcessor` and `MenuScriptBatchProcessor` (classes) |

Several things come from outside the program, so the model takes them as parameters:

- **The file system.** A tree of `Node`s, each folder with its entries in listing order.
- **What the commons-io filters accept.** A function `Matcher`.
- **Whether a regular expression compiles.** A predicate `compiles`.
- **What each module run yields.** A sequence of `Outcome`s, one per file: an outputs map, an execution failure, or an interruption.
- **Whether the task is cancelled after each file.** A sequence of booleans.
- **`ScriptService.getScript`.** A function `getScript`.
- **`ConvertService.supports(new File(""), type)`.** A predicate `fromFile`.

A command that the source launches through the command service becomes a returned `Launch` value that carries the input map. A Java `null` becomes `None` (or `NullArg` in an input map).

Three points of the code that the model follows closely:

1. `ModuleBatchProcessor` checks for cancellation after each file is processed (ModuleBatchProcessor.java:136-139), so the row of the file during which the task was cancelled stays.
2. `fillInput` with no provider for the item logs an error for each file and goes on (FileBatchService.java:72-75). The model's service log gets one error per processed file.
3. `FileScriptBatchProcessor.run` passes no output folder, because the line that would pass one is commented out (FileScriptBatchProcessor.java:111). `MenuScriptBatchProcessor.run` does pass one.

## Model

| member | source | states |
|---|---|---|
| `BatchInputs.OfClass` | src/main/java/org/scijava/batch/input/BatchInput.java:47-50 | the pair built from a class reports exactly that class as its source type and that item as its module item |
| `BatchInputs.OfType` | src/main/java/org/scijava/batch/input/BatchInput.java:52-55 | the pair built from a type reports exactly that type and that item |
| `BatchInputs.ConstructorsAgree` | src/main/java/org/scijava/batch/input/BatchInput.java:47-55 | the two constructors give equal pairs for the same class and item |
| `Providers.HasStyleOfTokens` | src/main/java/org/scijava/batch/input/FileBatchInputProvider.java:59-64 | for a style listing tokens with `\s*,\s*` between them and blanks at either end, `hasStyle` holds exactly when the style asked for is one of those whole tokens, wherever the spaces stand |
| `Providers.SaveItemsRejected` | src/main/java/org/scijava/batch/input/FileBatchInputProvider.java:24-28 | an item whose style lists `save`, with or without spaces around the commas, is never provided for, and the file provider supports no lookup key for it |
| `Providers.FileSupportsIgnoresSourceType` | src/main/java/org/scijava/batch/input/FileBatchInputProvider.java:19-22 | the file provider's `supports` is `canProvide` of the item, whatever the source type |
| `Providers.ExtensionTokensMembers` | src/main/java/org/scijava/batch/input/FileBatchInputProvider.java:47-55 | the kept style tokens are exactly those starting with `extensions`, and there are no more of them than tokens |
| `Providers.TargetStyles` | src/main/java/org/scijava/batch/input/FileBatchInputProvider.java:37-57 | the target styles start with `directories` if the item has the directory style and with `files` otherwise; every later one starts with `extensions` |
| `Providers.TargetWidgetStyle` | src/main/java/org/scijava/batch/input/FileBatchInputProvider.java:37-57 | the method with its token loop returns the target styles joined with commas |
| `Providers.CollectExtensions` | src/main/java/org/scijava/batch/input/FileBatchInputProvider.java:49-55 | the loop keeps the tokens starting with `extensions`, unchanged and in order |
| `Providers.TargetStyleWithoutStyle` | src/main/java/org/scijava/batch/input/FileBatchInputProvider.java:40-56 | an item without a widget style gets exactly `files` |
| `Providers.TargetStylePieces` | src/main/java/org/scijava/batch/input/FileBatchInputProvider.java:56 | cutting the joined target style at its commas gives back the selection token and the extension tokens |
| `Providers.StoredValue` | src/main/java/org/scijava/batch/input/BatchInputProvider.java:27 | what `populateInput` stores for a file is the file itself exactly for the file provider; a plugin provider stores a value of its own derived from the file |
| `Providers.PopulateInput` | src/main/java/org/scijava/batch/input/FileBatchInputProvider.java:31-34 | the module's value for the item becomes what the provider stores for the file, which for the file provider is the file; no other value changes |
| `Text.Trim` | src/main/java/org/scijava/batch/input/FileBatchInputProvider.java:62 | `trim` leaves no blank character at either end, and leaves a text without blank ends unchanged |
| `Text.StripSpaces` | src/main/java/org/scijava/batch/input/FileBatchInputProvider.java:62 | the `\s*` around a separator removes all `\s` characters at both ends of a piece and leaves a piece without any there unchanged |
| `Text.Pieces` | src/main/java/org/scijava/batch/input/FileBatchInputProvider.java:62 | cutting at every comma gives at least one piece, none holding a comma |
| `Text.DropTrailingEmpty` | src/main/java/org/scijava/batch/input/FileBatchInputProvider.java:62 | `split` drops exactly the trailing empty strings: the result is a prefix, does not end in an empty string, and everything dropped was empty |
| `Text.SplitCommaList` | src/main/java/org/scijava/batch/input/FileBatchInputProvider.java:62 | no token holds a comma; a trimmed text without a comma comes back whole; with a comma, the last token is not empty |
| `Text.SplitSeparatedRoundTrip` | src/main/java/org/scijava/batch/input/FileBatchInputProvider.java:62-63 | splitting well-formed tokens written with `\s*,\s*` between them, and blanks at either end, gives exactly those tokens back |
| `Text.TrimSeparated` | src/main/java/org/scijava/batch/input/FileBatchInputProvider.java:62 | `trim` removes exactly the blanks around such a listing, and what is left holds a comma exactly when there are two tokens or more |
| `Text.CommaTokensSeparated` | src/main/java/org/scijava/batch/input/FileBatchInputProvider.java:62 | cutting such a listing at its commas and stripping the spaces around each piece gives the tokens |
| `Text.SplitJoinRoundTrip` | src/main/java/org/scijava/batch/input/FileBatchInputProvider.java:62-63 | splitting well-formed tokens joined with a bare comma gives exactly those tokens back |
| `Text.PiecesOfJoin` | src/main/java/org/scijava/batch/input/FileBatchInputProvider.java:56 | cutting a comma-joined list of comma-free strings at its commas gives the list back |
| `Text.CommaTokensHaveNoComma` | src/main/java/org/scijava/batch/input/FileBatchInputProvider.java:62 | the stripped pieces left after dropping trailing empty ones hold no comma |
| `Text.EndsWithIffConcat` | src/main/java/org/scijava/batch/BatchProcessor.java:124 | `endsWith` holds exactly when the text is some prefix followed by the suffix |
| `Text.LowerChar` | src/main/java/org/scijava/batch/BatchProcessor.java:124 | an upper-case ASCII letter becomes its lower-case letter, every other character stays, and no upper-case letter is left |
| `Text.ToLower` | src/main/java/org/scijava/batch/BatchProcessor.java:124 | lower-casing keeps the length and lower-cases character by character |
| `Text.ToLowerIdempotent` | src/main/java/org/scijava/batch/BatchProcessor.java:124 | lower-casing twice is lower-casing once |
| `Text.NatToString` | src/main/java/org/scijava/batch/FileScriptBatchProcessor.java:156 | the decimal rendering is a non-empty string of digits with a leading zero only for zero |
| `Text.NatToStringRoundTrip` | src/main/java/org/scijava/batch/FileScriptBatchProcessor.java:156 | reading back the decimal rendering of a count gives the count |
| `Text.NatToStringInjective` | src/main/java/org/scijava/batch/FileScriptBatchProcessor.java:169 | different counts render differently |
| `Text.LessEqTotal` | src/main/java/org/scijava/batch/BatchProcessor.java:88 | any two names are ordered one way or the other by `compareTo` |
| `Text.LessEqTransitive` | src/main/java/org/scijava/batch/BatchProcessor.java:88 | the `compareTo` order is transitive |
| `Text.LessEqAntisymmetric` | src/main/java/org/scijava/batch/BatchProcessor.java:88 | names ordered both ways are equal, so the sorted order is unique |
| `Runtime.InputNamed` | src/main/java/org/scijava/batch/ModuleBatchProcessor.java:107 | `getInput(name)` gives an input of that name, and `null` exactly when no input has that name |
| `Runtime.SingleFileInput` | src/main/java/org/scijava/batch/BatchProcessor.java:82 | `getSingleInput(module, File.class)` gives a `File` input of the module exactly when there is exactly one |
| `Runtime.FileInputs` | src/main/java/org/scijava/batch/BatchProcessor.java:82 | the `File` inputs are exactly the inputs of type `File` |
| `Runtime.Task.constructor` | src/main/java/org/scijava/batch/ModuleBatchProcessor.java:127 | a new task has the given name, no progress, and is not finished |
| `Runtime.Task.SetProgressMaximum` | src/main/java/org/scijava/batch/ModuleBatchProcessor.java:128 | sets the progress maximum only |
| `Runtime.Task.SetProgressValue` | src/main/java/org/scijava/batch/ModuleBatchProcessor.java:140 | sets the progress value only |
| `Runtime.Task.Finish` | src/main/java/org/scijava/batch/ModuleBatchProcessor.java:142 | marks the task finished |
| `Runtime.Module.constructor` | src/main/java/org/scijava/batch/ModuleBatchProcessor.java:109 | a new module instance of the info with no values and nothing resolved |
| `Runtime.Module.SetInput` | src/main/java/org/scijava/batch/input/FileBatchInputProvider.java:33 | sets one input's value and leaves the others |
| `Runtime.Module.ResolveInput` | src/main/java/org/scijava/batch/ModuleBatchProcessor.java:110 | adds the input to the resolved ones |
| `Runtime.Module.ResolveOutput` | src/main/java/org/scijava/batch/ModuleBatchProcessor.java:119 | adds the output to the resolved ones |
| `Tables.SetCell` | src/main/java/org/scijava/batch/ModuleBatchProcessor.java:162-163 | `set` succeeds exactly when the column exists and the row is in range; it then changes that one cell only |
| `Tables.OutputKeys` | src/main/java/org/scijava/batch/ModuleBatchProcessor.java:160-161 | the keys of an outputs map are exactly the keys of its entries |
| `Tables.WithOutputsCells` | src/main/java/org/scijava/batch/ModuleBatchProcessor.java:161-164 | writing an outputs map with distinct keys into a row gives each key its value, keeps the other cells, and sets no other cell |
| `Services.GetHandler` | src/main/java/org/scijava/batch/FileBatchService.java:61 | the handler found is one of the registered providers |
| `Services.GetHandlerFirstMatch` | src/main/java/org/scijava/batch/FileBatchService.java:61-64 | there is no handler exactly when no provider supports the key; otherwise the handler supports it and no provider ahead of it does |
| `Services.BatchableInputs` | src/main/java/org/scijava/batch/BatchService.java:73-77 | the batchable inputs are exactly the supported inputs, in declaration order, never more of them than inputs |
| `Services.SomeInputIffBatchable` | src/main/java/org/scijava/batch/BatchService.java:48-77 | some input is supported exactly when the list of batchable inputs is not empty |
| `Services.SupportedItemHasHandler` | src/main/java/org/scijava/batch/FileBatchService.java:59-77 | a supported item always has a handler, so filling it never logs an error |
| `Services.FileProviderAlone` | src/main/java/org/scijava/batch/FileBatchService.java:59-66 | with the file provider alone, an item is supported exactly when it is a `File` not styled for saving, and the file provider is its handler |
| `Services.EarlierProviderShadows` | src/main/java/org/scijava/batch/FileBatchService.java:61-65 | a provider ahead of the file provider that claims the key but cannot provide for the item makes the item unsupported |
| `Services.BatchableFileInputs` | src/test/java/org/scijava/batch/BatchServiceTest.java:82-95 | `File`, `String`, `Integer` and `Double` inputs give exactly the `File` input as batchable |
| `Services.NoCompatibleInputs` | src/test/java/org/scijava/batch/BatchServiceTest.java:97-110 | `String`, `Integer` and `Double` inputs give no batchable input |
| `Services.FileBatchService.constructor` | src/main/java/org/scijava/batch/FileBatchService.java:47-54 | the service with its providers in priority order and nothing logged |
| `Services.FileBatchService.SupportsModule` | src/main/java/org/scijava/batch/BatchService.java:48-54 | the early-return loop answers whether some input of the module is supported |
| `Services.FileBatchService.FillInput` | src/main/java/org/scijava/batch/FileBatchService.java:69-77 | without a handler: one error logged and the module untouched; with one: the item's value becomes what that handler stores for the file, and nothing is logged |
| `Services.FileInputFilledWithFile` | src/test/java/org/scijava/batch/BatchServiceTest.java:112-128 | with the file provider, a `File` input is filled with the file itself |
| `Services.PluginInputFilledByPlugin` | src/test/java/org/scijava/batch/BatchServiceTest.java:130-148 | an input only a plugin provider supports is filled with that plugin's value, not the bare file |
| `Services.FileBatchService.Run` | src/main/java/org/scijava/batch/FileBatchService.java:79-99 | nothing is launched exactly when there is no batchable input, and then an error is logged; otherwise the module batch processor is launched with only the module info given |
| `ModuleBatch.BatchFrom` | src/main/java/org/scijava/batch/ModuleBatchProcessor.java:130-141 | the loop from a file on gives at most one row per remaining file and at least one while a file remains |
| `ModuleBatch.BatchHaltsAt` | src/main/java/org/scijava/batch/ModuleBatchProcessor.java:130-141 | after an interrupted run or a cancellation the loop ends with that file's row, no further progress, the failure and the warning logged |
| `ModuleBatch.BatchContinuesAt` | src/main/java/org/scijava/batch/ModuleBatchProcessor.java:130-141 | otherwise the loop counts one step of progress and goes on with the next file |
| `ModuleBatch.BatchRowsFollowFiles` | src/main/java/org/scijava/batch/ModuleBatchProcessor.java:130-173 | each row belongs to the file at its position, is labelled with that file's name, and holds its outputs exactly when its run succeeded |
| `ModuleBatch.BatchRunsUntilHalt` | src/main/java/org/scijava/batch/ModuleBatchProcessor.java:130-139 | no file before the last one processed halts the loop |
| `ModuleBatch.BatchCompletedCountsAll` | src/main/java/org/scijava/batch/ModuleBatchProcessor.java:130-141 | a completed loop processed and counted every file |
| `ModuleBatch.BatchStoppedAtHalt` | src/main/java/org/scijava/batch/ModuleBatchProcessor.java:130-141 | a loop that stops early counted every processed file but the last, which halted it; it is aborted exactly when that run was interrupted |
| `ModuleBatch.BatchStopsAtFirstHalt` | src/main/java/org/scijava/batch/ModuleBatchProcessor.java:130-141 | the loop stops at the first file that halts it, and only there: a completed loop processed and counted every file, a stopped one counted all but the file that halted it, and it aborted exactly when that run was interrupted |
| `ModuleBatch.BatchWithoutHaltsCompletes` | src/main/java/org/scijava/batch/ModuleBatchProcessor.java:130-141 | with no interruption and no cancellation every file gets its row and the progress reaches the file count |
| `ModuleBatch.CancelAfterItem` | src/main/java/org/scijava/batch/ModuleBatchProcessor.java:136-140 | a cancellation noticed after file k keeps that file's row: k rows, k - 1 steps of progress |
| `ModuleBatch.InterruptAtItem` | src/main/java/org/scijava/batch/ModuleBatchProcessor.java:130-168 | an interrupted run of file k ends the batch with k rows, the last one empty |
| `ModuleBatch.SucceededRowCells` | src/main/java/org/scijava/batch/ModuleBatchProcessor.java:155-165 | in the row of a successful run, every output sits in the column of its name and no other cell is set |
| `ModuleBatch.ThreeFileScenario` | src/test/java/org/scijava/batch/BatchServiceTest.java:151-192 | three files through a script whose only output `result` is its input give a table with one column headed `result` and three rows, three steps of progress, and a last row labelled `quo.txt` holding that file under `result` |
| `ModuleBatch.RepeatEntry` | src/main/java/org/scijava/batch/FileBatchService.java:72-75 | the service's log after filling n files into an item without a handler holds n copies of the error |
| `ModuleBatch.ChoicesNameInputs` | src/main/java/org/scijava/batch/ModuleBatchProcessor.java:89-107 | every offered choice names an input of the module, so `run` finds it |
| `ModuleBatch.StartOutputTable` | src/main/java/org/scijava/batch/ModuleBatchProcessor.java:112-120 | a table with one column per output, in key order, and no rows; every output marked resolved |
| `ModuleBatch.ModuleBatchProcessor.constructor` | src/main/java/org/scijava/batch/ModuleBatchProcessor.java:59-79 | the command with its parameters from the input map; the choice not resolved, nothing offered, logged or tabulated |
| `ModuleBatch.ModuleBatchProcessor.InitInputChoice` | src/main/java/org/scijava/batch/ModuleBatchProcessor.java:86-100 | one batchable input: chosen and resolved; several: their names offered in order, nothing chosen; none: only an error logged |
| `ModuleBatch.ModuleBatchProcessor.ProcessFile` | src/main/java/org/scijava/batch/ModuleBatchProcessor.java:151-173 | fills the file (the input takes what the handler stores for it, or an error is logged without a handler), appends its row, writes the outputs on success; logs a failure; answers false exactly when the run was interrupted |
| `ModuleBatch.ModuleBatchProcessor.WriteOutputs` | src/main/java/org/scijava/batch/ModuleBatchProcessor.java:160-164 | the loop over the outputs writes all of them into the last row and changes nothing else |
| `ModuleBatch.ModuleBatchProcessor.Run` | src/main/java/org/scijava/batch/ModuleBatchProcessor.java:104-142 | the table, log and task progress are those of `Batch`; the module has the chosen input and all outputs resolved; the task is finished; the service's log and the module's values are those after filling the processed files (other changes made by the run are not modelled): the input holds what the handler stores for the last one |
| `ModuleBatch.ModuleBatchProcessor.CreateModule` | src/main/java/org/scijava/batch/ModuleBatchProcessor.java:107-120 | a fresh instance, the chosen input and every output resolved, and an empty table with the outputs as columns |
| `ModuleBatch.ModuleBatchProcessor.CreateTask` | src/main/java/org/scijava/batch/ModuleBatchProcessor.java:122-128 | the task is named after the module, or `Batch:` without a name, and counts up to the number of files |
| `ModuleBatch.ModuleBatchProcessor.ProcessFiles` | src/main/java/org/scijava/batch/ModuleBatchProcessor.java:130-141 | the loop leaves exactly the rows, progress and log of `Batch`; the input holds what the handler stores for the last file processed, or one error per file is logged without a handler |
| `LegacyBatch.NiceNameSameLeaf` | src/main/java/org/scijava/batch/BatchProcessor.java:94-98 | scripts with the same leaf get the same nice name exactly when they sit in the same menu |
| `LegacyBatch.NiceNameAtTop` | src/main/java/org/scijava/batch/BatchProcessor.java:94-98 | a script at the top of the menu gets `leaf (in )` |
| `LegacyBatch.OfferedScripts` | src/main/java/org/scijava/batch/BatchProcessor.java:80-87 | the offered scripts are exactly those with a single `File` input |
| `LegacyBatch.FillMapLatest` | src/main/java/org/scijava/batch/BatchProcessor.java:80-87 | the script map has a key for every offered name, and each name maps to the last script offered under it |
| `LegacyBatch.SameKeyKeepsLater` | src/main/java/org/scijava/batch/BatchProcessor.java:83-85 | two scripts with the same nice name: the name is listed twice among the choices and maps to the later script |
| `LegacyBatch.SortedPermutationUnique` | src/main/java/org/scijava/batch/BatchProcessor.java:88 | two sorted arrangements of the same names are equal |
| `LegacyBatch.InsertSorted` | src/main/java/org/scijava/batch/BatchProcessor.java:88 | inserting a name into sorted names keeps them sorted and adds just that name |
| `LegacyBatch.SortStrings` | src/main/java/org/scijava/batch/BatchProcessor.java:88 | `Collections.sort` gives a sorted permutation of the names |
| `LegacyBatch.AcceptedFiles` | src/main/java/org/scijava/batch/BatchProcessor.java:121-131 | the listed files are exactly those whose lower-cased name ends with the lower-cased extension, in listing order |
| `LegacyBatch.AcceptsIgnoresCase` | src/main/java/org/scijava/batch/BatchProcessor.java:124 | the filter gives the same answer for a lower-cased name or extension |
| `LegacyBatch.AcceptsIffStem` | src/main/java/org/scijava/batch/BatchProcessor.java:124 | a name is accepted exactly when, lower-cased, it is some stem followed by the lower-cased extension |
| `LegacyBatch.EmptyExtensionAcceptsAll` | src/main/java/org/scijava/batch/BatchProcessor.java:124-126 | an empty extension accepts every file |
| `LegacyBatch.SetOutputsShape` | src/main/java/org/scijava/batch/BatchProcessor.java:138-140 | writing outputs keeps the columns, the row count and every row label |
| `LegacyBatch.CountedSetThrowsIff` | src/main/java/org/scijava/batch/BatchProcessor.java:138-140 | with the counter, no `set` throws exactly when every output names a column and output k's row `i + k` exists; the counter then advanced by the number of outputs |
| `LegacyBatch.SetInRowCells` | src/main/java/org/scijava/batch/ModuleBatchProcessor.java:161-164 | writing all outputs into one row sets their cells in that row and changes nothing else |
| `LegacyBatch.PassFrom` | src/main/java/org/scijava/batch/BatchProcessor.java:130-148 | the loop from file k on takes on at least k and at most all files |
| `LegacyBatch.PassStep` | src/main/java/org/scijava/batch/BatchProcessor.java:131-147 | each file appends its row, labelled with its name, keeping the earlier labels and the columns, then the loop goes on or ends there |
| `LegacyBatch.PassRowCount` | src/main/java/org/scijava/batch/BatchProcessor.java:131-133 | the loop leaves one row per file it took on |
| `LegacyBatch.PassRowHeaders` | src/main/java/org/scijava/batch/BatchProcessor.java:131-133 | rows are labelled with the file names, in listing order |
| `LegacyBatch.PassStopsAt` | src/main/java/org/scijava/batch/BatchProcessor.java:130-148 | no file before the last one taken on was interrupted; the loop returns after an interrupted run, throws only after a successful one, and otherwise lists every file |
| `LegacyBatch.LegacyRowsAndStop` | src/main/java/org/scijava/batch/BatchProcessor.java:130-148 | `run` as written: one labelled row per file taken on, in order, and the ways the loop can end |
| `LegacyBatch.CorrectedStep` | src/main/java/org/scijava/batch/ModuleBatchProcessor.java:152-171 | with the fix, a file appends the same row and log as the module batch processor does |
| `LegacyBatch.CorrectedFollowsBatch` | src/main/java/org/scijava/batch/ModuleBatchProcessor.java:130-171 | with the fix, the loop yields the rows of the module batch processor's loop without cancellations, never throws, and returns exactly when that loop aborts |
| `LegacyBatch.CorrectedRowsHoldOwnOutputs` | src/main/java/org/scijava/batch/BatchProcessor.java:130-148 | with the fix, every row holds exactly the outputs of its own file's run |
| `LegacyBatch.CorrectedIgnoresCounter` | src/main/java/org/scijava/batch/BatchProcessor.java:130 | with the fix, the counter's value makes no difference |
| `LegacyBatch.OneOutputEachAgrees` | src/main/java/org/scijava/batch/BatchProcessor.java:137-140 | when every run is interrupted or returns exactly one output, the loop as written and the fixed loop agree |
| `LegacyBatch.MisplacedAfterFailure` | src/main/java/org/scijava/batch/BatchProcessor.java:139 | a failed first run followed by a one-output run: as written the output lands in the first file's row |
| `LegacyBatch.SecondOutputThrows` | src/main/java/org/scijava/batch/BatchProcessor.java:139 | a single file whose run returns two outputs: as written the second `set` throws |
| `LegacyBatch.BatchProcessor.constructor` | src/main/java/org/scijava/batch/BatchProcessor.java:44-67 | the command with its extension and script choice, an empty script map and no table |
| `LegacyBatch.BatchProcessor.InitScriptChoice` | src/main/java/org/scijava/batch/BatchProcessor.java:76-90 | the choices are the nice names of the offered scripts, sorted; the script map gains a fresh module per name for the last script under it and keeps its other entries |
| `LegacyBatch.BatchProcessor.CreateOffered` | src/main/java/org/scijava/batch/BatchProcessor.java:79-87 | the loop collects the nice names of the offered scripts in order and a fresh unresolved module per name |
| `LegacyBatch.BatchProcessor.Run` | src/main/java/org/scijava/batch/BatchProcessor.java:104-149 | the table, log and ending are those of the loop as written over the accepted files; the file input and all outputs are resolved; the file input holds the last file taken on (other changes made by the runs are not modelled) |
| `LegacyBatch.BatchProcessor.ProcessListed` | src/main/java/org/scijava/batch/BatchProcessor.java:130-148 | the loop yields what `PassFrom` does and, unless a `set` threw, leaves `i` at the number of output values returned by the runs taken on |
| `LegacyBatch.BatchProcessor.WriteCounted` | src/main/java/org/scijava/batch/BatchProcessor.java:138-140 | the inner loop writes with `i++`; when nothing throws, `i` has advanced by the number of outputs |
| `FileListing.Accepted` | src/main/java/org/scijava/batch/FileScriptBatchProcessor.java:124-126 | `listFiles(filter)` yields no more entries than the folder has |
| `FileListing.AcceptedMembers` | src/main/java/org/scijava/batch/FileScriptBatchProcessor.java:124-126 | the accepted entries are exactly the entries whose names the filter accepts |
| `FileListing.FlatWalkIsFolderListing` | src/main/java/org/scijava/batch/FileScriptBatchProcessor.java:117-128 | without recursion the walk gives exactly the folder's accepted entries in listing order |
| `FileListing.RecursiveWalkEndsWithFolderListing` | src/main/java/org/scijava/batch/FileScriptBatchProcessor.java:117-128 | with recursion the folder's own accepted entries come last, after the subfolder results |
| `FileListing.RecursiveWalkFindsAccepted` | src/main/java/org/scijava/batch/FileScriptBatchProcessor.java:117-128 | the recursive walk finds exactly the entries at any depth whose names the filter accepts |
| `FileListing.FirstEntriesFound` | src/main/java/org/scijava/batch/FileScriptBatchProcessor.java:119-126 | the walk over the first entries of a folder finds the accepted ones among and below them |
| `FileListing.PopulateFileList` | src/main/java/org/scijava/batch/FileScriptBatchProcessor.java:117-128 | the recursive method returns what `Collect` specifies (the same code is MenuScriptBatchProcessor.java:76-89) |
| `FileListing.WalkSubfolders` | src/main/java/org/scijava/batch/FileScriptBatchProcessor.java:119-123 | the first loop concatenates the subfolders' recursive results in subfolder order |
| `FileListing.AddAccepted` | src/main/java/org/scijava/batch/FileScriptBatchProcessor.java:124-126 | the second loop appends the accepted entries in listing order |
| `ScriptBatch.ChooseFilter` | src/main/java/org/scijava/batch/FileScriptBatchProcessor.java:141-149 | the filter keeps the pattern and is the wildcard filter exactly when the choice is `Wildcard` |
| `ScriptBatch.NonWildcardIsRegex` | src/main/java/org/scijava/batch/MenuScriptBatchProcessor.java:99-106 | any choice but `Wildcard` gives the same regular-expression filter as `Regex` |
| `ScriptBatch.FoundMessageTellsCount` | src/main/java/org/scijava/batch/FileScriptBatchProcessor.java:155-157 | the message tells the count: different counts give different messages, and none is the syntax-error message |
| `ScriptBatch.CompatibleMessageTellsCount` | src/main/java/org/scijava/batch/FileScriptBatchProcessor.java:169 | different counts of compatible inputs give different messages |
| `ScriptBatch.CountConvertibleBounds` | src/main/java/org/scijava/batch/FileScriptBatchProcessor.java:163-168 | the count is at most the number of inputs, zero exactly when none is convertible, and all of them exactly when all are |
| `ScriptBatch.FileScriptBatchProcessor.constructor` | src/main/java/org/scijava/batch/FileScriptBatchProcessor.java:69-94 | the field initializers: `Wildcard`, `*.tif`, the placeholder message, no file list and no script info |
| `ScriptBatch.FileScriptBatchProcessor.DirectoryCallback` | src/main/java/org/scijava/batch/FileScriptBatchProcessor.java:135-158 | nothing changes without an existing folder; otherwise the file list is `null` exactly on a pattern error (with the syntax-error message) and is otherwise the walk's result with `Found n files.` |
| `ScriptBatch.FileScriptBatchProcessor.ScriptFileCallback` | src/main/java/org/scijava/batch/FileScriptBatchProcessor.java:160-171 | nothing changes without a script file; otherwise the script info is loaded and the message gives the number of inputs convertible from a file |
| `ScriptBatch.FileScriptBatchProcessor.Run` | src/main/java/org/scijava/batch/FileScriptBatchProcessor.java:96-113 | recomputes the file list and script info only when they are `null`; launches exactly when there is a file list, with the script info and the files in order |
| `ScriptBatch.MenuScriptBatchProcessor.constructor` | src/main/java/org/scijava/batch/MenuScriptBatchProcessor.java:40-62 | the chosen script and the field initializers |
| `ScriptBatch.MenuScriptBatchProcessor.DirectoryCallback` | src/main/java/org/scijava/batch/MenuScriptBatchProcessor.java:96-115 | the file list is `null` exactly on a pattern error (with the syntax-error message), otherwise the walk's result with `Found n files.`; the filter is kept only when it was built |
| `ScriptBatch.MenuScriptBatchProcessor.Run` | src/main/java/org/scijava/batch/MenuScriptBatchProcessor.java:64-72 | launches exactly when there is a file list, with the script info, the files in order and the output folder (or `null`) |

## Left out

- Threads and futures: what `future.get()` yields for each file is a given sequence of outcomes, and cancellation is a given flag per file.
- The file system: `listFiles`, `exists` and what the commons-io wildcard and regular-expression filters accept are given as a tree and as predicates. Whether a pattern compiles is also a predicate, and the model does not parse regular expressions.
- `ScriptService.getScript` and `ConvertService.supports` are given as functions. A `null` script info from `getScript` is not modelled.
- The plugin framework's ordering of providers by priority: the providers are a given list, already in priority order.
- Logging: the model records only the error and warning messages that mark outcomes. It leaves out exception stack traces and the task's status messages, and the cancel callback that sets one.
- Providers.PopulateInput: what a plugin provider's `populateInput` stores is left to the plugin, so the model takes it to store one value of its own derived from the file (`ProvidedValue`) and to change nothing else on the module; what that value is, for instance a converted `Path`, is not modelled.
- ModuleBatch.ModuleBatchProcessor.ProcessFile: the run's own effects on the module instance are not modelled. `moduleService.run(module, true)` runs the framework's preprocessors, which can set the module's other, unresolved inputs; the contract states the values as if only the batch input changed.
- ModuleBatch.ModuleBatchProcessor.ProcessFiles: the run's own effects on the module instance are not modelled, as for ProcessFile; the values stated are those left by filling the batch input alone.
- ModuleBatch.ModuleBatchProcessor.Run: the run's own effects on the module instance are not modelled, as for ProcessFile; the values stated are those left by filling the batch input alone.
- LegacyBatch.BatchProcessor.Run: the run's own effects on the script module are not modelled. `modules.run(module, true)` (BatchProcessor.java:135) runs the preprocessors, which can set its other inputs; the values stated are those left by setting the file input alone.
- LegacyBatch.BatchProcessor.ProcessListed: the run's own effects on the script module are not modelled, as for LegacyBatch.BatchProcessor.Run.
- `BatchInputProvider.getType`: it returns the `BatchInput` class object, and the model has no class objects.
- Immutability of `BatchInput`: it holds because `BatchInput` is a datatype value.
- `BatchProcessor.main`, `SwingScriptInfoWidget` and `BatchModuleSearchActionFactory` are not part of this model. They are an application launcher, a Swing widget, and search glue around `supportsModule` and `run`.
- Text.ToLower: only ASCII letters are lower-cased, which is enough for file extensions but not the full Unicode rules of `String.toLowerCase`.
- Text.LessEq: characters are compared by code point, while `compareTo` compares UTF-16 code units. The two orders differ only for characters outside the Basic Multilingual Plane.
- ModuleBatch.ModuleBatchProcessor.Run: requires the chosen input to name an input of the module. Otherwise the lookup yields `null` and filling the first file throws.
- ModuleBatch.ModuleBatchProcessor.Run: requires the runs' output keys to be outputs the module declares, which the framework guarantees. A key that was not declared would make `set` throw.
- ModuleBatch.ModuleBatchProcessor.ProcessFile: requires the run's output keys to be table columns, as above.
- LegacyBatch.BatchProcessor.Run: requires the chosen script to be in the script map with a single `File` input. Otherwise the source throws at BatchProcessor.java:106-109.
- LegacyBatch.BatchProcessor.Run: a `null` input folder, which would make `listFiles` throw, is not modelled.
- LegacyBatch.BatchProcessor.InitScriptChoice: requires every script to have a menu path with a leaf. An empty path makes `getLeaf()` return `null`, and `getNiceName` then throws.
- FileListing.PopulateFileList: requires a folder. For a plain file `listFiles` returns `null` and the source's loop throws.
- ScriptBatch.FileScriptBatchProcessor.DirectoryCallback: requires an existing input folder to be a folder, as above.
- ScriptBatch.FileScriptBatchProcessor.Run: requires an existing input folder to be a folder, as above. A launch of `None` stands for the exception `fileList.toArray` throws when the list is `null`.
- ScriptBatch.MenuScriptBatchProcessor.DirectoryCallback: requires a folder unless the pattern fails to compile. The source has no `null` check, so walking a missing folder throws. A pattern error throws first, so it is safe without a folder.
- ScriptBatch.MenuScriptBatchProcessor.Run: a launch of `None` stands for the exception `fileList.toArray` throws when the list is `null`. A `null` script info is not modelled.

## Findings

| source | as written | input that shows it | evidently intended | confidence | as-written member | corrected member |
|---|---|---|---|---|---|---|
| src/main/java/org/scijava/batch/BatchProcessor.java:139 | each output is set in row `i++`, a counter that starts at 0 and advances once per value written, not once per file | two files, the first run failing and the second returning one output `y`: the output lands in the first file's row and the second row stays empty (`MisplacedAfterFailure`); one file whose run returns two outputs: the second `set` goes to row 1, which does not exist, and throws (`SecondOutputThrows`) | every output of a run goes into the row just appended for its file, as `ModuleBatchProcessor` does | not executed | `LegacyBatch.MisplacedAfterFailure` | `LegacyBatch.CorrectedRowsHoldOwnOutputs` |

`LegacyBatch.Legacy` is the loop as written, and `LegacyBatch.BatchProcessor.Run` is proved against it. `LegacyBatch.Corrected` is the same loop with each run's outputs written into the row just appended. `LegacyBatch.CorrectedFollowsBatch` proves that the corrected loop gives the rows of `ModuleBatch.Batch`. `LegacyBatch.OneOutputEachAgrees` proves that the two loops agree when every run returns exactly one output.
