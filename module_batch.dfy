/**
 * `ModuleBatchProcessor`: the command that runs one module once per input
 * file, feeding each file into the chosen input and collecting the outputs
 * of every run into one row of a result table.
 *
 * What each run yields, and whether the task has been cancelled by the time
 * a run is over, come from outside (the module framework and the user) and
 * are given as the sequences `outcomes` and `cancels`, one entry per file.
 */
module ModuleBatch {
  import opened Wrappers
  import opened Runtime
  import opened Tables
  import opened BatchInputs
  import opened Providers
  import opened Services

  /** How the batch loop ended: every file processed, cancelled by the user, or interrupted. */
  datatype Stop = Completed | Cancelled | Aborted

  /** What the batch loop leaves behind: the table rows, the task's progress value, how it ended, what it logged. */
  datatype BatchResult = BatchResult(rows: seq<Row>, progress: nat, stop: Stop, log: seq<LogEntry>)

  const TerminatingWarning := Warn("Terminating batch process.")
  const NoCompatibleInputsMessage := "No compatible inputs found. Unable to initialize input choice."
  /** The task name used when the module has no name. */
  const DefaultTaskName := "Batch:"

  /** The row of one processed file: labelled by the file's name, holding the outputs only when the run succeeded. */
  function RowOf(file: FileRef, o: Outcome): Row {
    Row(file.name, if o.Succeeded? then WithOutputs(map[], o.outputs) else map[])
  }

  /** What `processFile` logs about a run that did not succeed. */
  function FailureLog(o: Outcome): seq<LogEntry> {
    match o
    case Succeeded(_) => []
    case ExecutionFailed => [Error("Error during module execution")]
    case Interrupted => [Error("Error: interrupted module execution")]
  }

  /** Whether the loop stops after a file: its run was interrupted, or the task was cancelled meanwhile. */
  predicate Halts(o: Outcome, cancelled: bool) {
    o.Interrupted? || cancelled
  }

  /** A result with some rows, progress and log entries in front of it. */
  function Prepend(rows: seq<Row>, progress: nat, log: seq<LogEntry>, r: BatchResult): BatchResult {
    BatchResult(rows + r.rows, progress + r.progress, r.stop, log + r.log)
  }

  /** Putting two prefixes in front of a result, one after the other, puts their concatenation in front of it. */
  lemma PrependTwice(rows: seq<Row>, progress: nat, log: seq<LogEntry>,
                     rows': seq<Row>, progress': nat, log': seq<LogEntry>, r: BatchResult)
    ensures Prepend(rows, progress, log, Prepend(rows', progress', log', r)) == Prepend(rows + rows', progress + progress', log + log', r)
  {
    assert rows + (rows' + r.rows) == (rows + rows') + r.rows;
    assert log + (log' + r.log) == (log + log') + r.log;
  }

  /**
   * The batch loop of `run` from file `i` on: append the file's row, stop
   * after an interrupted run or a cancellation, and otherwise count one step
   * of progress and go on with the next file.
   */
  function BatchFrom(files: seq<FileRef>, outcomes: seq<Outcome>, cancels: seq<bool>, i: nat): (r: BatchResult)
    requires |outcomes| == |files| && |cancels| == |files| && i <= |files|
    ensures |r.rows| <= |files| - i
    ensures i < |files| ==> |r.rows| >= 1
    decreases |files| - i
  {
    if i == |files| then BatchResult([], 0, Completed, [])
    else
      var row := RowOf(files[i], outcomes[i]);
      var failure := FailureLog(outcomes[i]);
      if outcomes[i].Interrupted? then BatchResult([row], 0, Aborted, failure + [TerminatingWarning])
      else if cancels[i] then BatchResult([row], 0, Cancelled, failure + [TerminatingWarning])
      else Prepend([row], 1, failure, BatchFrom(files, outcomes, cancels, i + 1))
  }

  /** The batch loop of `run` over all the input files. */
  function Batch(files: seq<FileRef>, outcomes: seq<Outcome>, cancels: seq<bool>): BatchResult
    requires |outcomes| == |files| && |cancels| == |files|
  {
    BatchFrom(files, outcomes, cancels, 0)
  }

  /**
   * A loop that has processed `i` files and then halts after file `i` ends
   * with that file's row appended, `i` steps of progress, and the failure
   * and the warning logged.
   */
  lemma BatchHaltsAt(files: seq<FileRef>, outcomes: seq<Outcome>, cancels: seq<bool>, i: nat,
                     rows: seq<Row>, log: seq<LogEntry>)
    requires |outcomes| == |files| && |cancels| == |files| && i < |files|
    requires Batch(files, outcomes, cancels) == Prepend(rows, i, log, BatchFrom(files, outcomes, cancels, i))
    requires Halts(outcomes[i], cancels[i])
    ensures Batch(files, outcomes, cancels)
      == BatchResult(rows + [RowOf(files[i], outcomes[i])], i, if outcomes[i].Interrupted? then Aborted else Cancelled,
                     log + FailureLog(outcomes[i]) + [TerminatingWarning])
  {
    AppendAssoc(log, FailureLog(outcomes[i]), [TerminatingWarning]);
  }

  /** A loop that has processed `i` files and does not halt after file `i` goes on with one row and one step more. */
  lemma BatchContinuesAt(files: seq<FileRef>, outcomes: seq<Outcome>, cancels: seq<bool>, i: nat,
                         rows: seq<Row>, log: seq<LogEntry>)
    requires |outcomes| == |files| && |cancels| == |files| && i < |files|
    requires Batch(files, outcomes, cancels) == Prepend(rows, i, log, BatchFrom(files, outcomes, cancels, i))
    requires !Halts(outcomes[i], cancels[i])
    ensures Batch(files, outcomes, cancels)
      == Prepend(rows + [RowOf(files[i], outcomes[i])], i + 1, log + FailureLog(outcomes[i]),
                 BatchFrom(files, outcomes, cancels, i + 1))
  {
    PrependTwice(rows, i, log, [RowOf(files[i], outcomes[i])], 1, FailureLog(outcomes[i]),
                 BatchFrom(files, outcomes, cancels, i + 1));
  }

  /**
   * Row `j` of the loop's rows from file `i` on belongs to file `i + j` and
   * holds that file's outputs exactly when its run succeeded.
   */
  lemma {:induction false} BatchRowsFollowFiles(files: seq<FileRef>, outcomes: seq<Outcome>, cancels: seq<bool>, i: nat)
    requires |outcomes| == |files| && |cancels| == |files| && i <= |files|
    ensures forall j :: 0 <= j < |BatchFrom(files, outcomes, cancels, i).rows| ==>
      BatchFrom(files, outcomes, cancels, i).rows[j] == RowOf(files[i + j], outcomes[i + j])
    decreases |files| - i
  {
    if i < |files| && !Halts(outcomes[i], cancels[i]) {
      BatchRowsFollowFiles(files, outcomes, cancels, i + 1);
      var r := BatchFrom(files, outcomes, cancels, i);
      var rest := BatchFrom(files, outcomes, cancels, i + 1);
      forall j | 1 <= j < |r.rows| ensures r.rows[j] == RowOf(files[i + j], outcomes[i + j]) {
        assert r.rows[j] == rest.rows[j - 1];
      }
    }
  }

  /** No file before the last one the loop processes from file `i` on halts it. */
  lemma {:induction false} BatchRunsUntilHalt(files: seq<FileRef>, outcomes: seq<Outcome>, cancels: seq<bool>, i: nat)
    requires |outcomes| == |files| && |cancels| == |files| && i <= |files|
    ensures var r := BatchFrom(files, outcomes, cancels, i);
      forall j :: i <= j < i + |r.rows| - 1 ==> !Halts(outcomes[j], cancels[j])
    decreases |files| - i
  {
    if i < |files| && !Halts(outcomes[i], cancels[i]) {
      BatchRunsUntilHalt(files, outcomes, cancels, i + 1);
    }
  }

  /** A loop that completes from file `i` on processed and counted every file from there, none of which halts it. */
  lemma {:induction false} BatchCompletedCountsAll(files: seq<FileRef>, outcomes: seq<Outcome>, cancels: seq<bool>, i: nat)
    requires |outcomes| == |files| && |cancels| == |files| && i <= |files|
    ensures var r := BatchFrom(files, outcomes, cancels, i);
      r.stop == Completed ==>
        |r.rows| == |files| - i && r.progress == |files| - i && forall j :: i <= j < |files| ==> !Halts(outcomes[j], cancels[j])
    decreases |files| - i
  {
    if i < |files| && !Halts(outcomes[i], cancels[i]) {
      BatchCompletedCountsAll(files, outcomes, cancels, i + 1);
    }
  }

  /**
   * A loop that stops early counted every file it processed but the last,
   * which is the one that halted it, and reports an abort exactly when that
   * file's run was interrupted.
   */
  lemma {:induction false} BatchStoppedAtHalt(files: seq<FileRef>, outcomes: seq<Outcome>, cancels: seq<bool>, i: nat)
    requires |outcomes| == |files| && |cancels| == |files| && i <= |files|
    ensures var r := BatchFrom(files, outcomes, cancels, i);
      r.stop != Completed ==>
        && 1 <= |r.rows| && r.progress == |r.rows| - 1
        && Halts(outcomes[i + |r.rows| - 1], cancels[i + |r.rows| - 1])
        && (r.stop == Aborted <==> outcomes[i + |r.rows| - 1].Interrupted?)
    decreases |files| - i
  {
    if i < |files| && !Halts(outcomes[i], cancels[i]) {
      BatchStoppedAtHalt(files, outcomes, cancels, i + 1);
    }
  }

  /**
   * The loop stops at the first file after which it halts, and only there:
   * no earlier file halts it, a completed loop processed every file and
   * counted each one, and a stopped loop counted every file but the last it
   * processed, which is the one that halted it.
   */
  lemma BatchStopsAtFirstHalt(files: seq<FileRef>, outcomes: seq<Outcome>, cancels: seq<bool>)
    requires |outcomes| == |files| && |cancels| == |files|
    ensures var r := Batch(files, outcomes, cancels);
      && (forall j :: 0 <= j < |r.rows| - 1 ==> !Halts(outcomes[j], cancels[j]))
      && (r.stop == Completed ==>
            |r.rows| == |files| && r.progress == |files| && forall j :: 0 <= j < |files| ==> !Halts(outcomes[j], cancels[j]))
      && (r.stop != Completed ==>
            1 <= |r.rows| && r.progress == |r.rows| - 1 && Halts(outcomes[|r.rows| - 1], cancels[|r.rows| - 1]))
      && (r.stop == Aborted <==> r.stop != Completed && outcomes[|r.rows| - 1].Interrupted?)
  {
    BatchRunsUntilHalt(files, outcomes, cancels, 0);
    BatchCompletedCountsAll(files, outcomes, cancels, 0);
    BatchStoppedAtHalt(files, outcomes, cancels, 0);
  }

  /** With no interrupted run and no cancellation, every file gets its row and the progress reaches the file count. */
  lemma BatchWithoutHaltsCompletes(files: seq<FileRef>, outcomes: seq<Outcome>, cancels: seq<bool>)
    requires |outcomes| == |files| && |cancels| == |files|
    requires forall j :: 0 <= j < |files| ==> !outcomes[j].Interrupted? && !cancels[j]
    ensures Batch(files, outcomes, cancels).stop == Completed
    ensures |Batch(files, outcomes, cancels).rows| == |files| == Batch(files, outcomes, cancels).progress
  {
    BatchStopsAtFirstHalt(files, outcomes, cancels);
  }

  /**
   * A cancellation noticed after file `k` (counting from 1), with nothing
   * halting the loop before, leaves exactly `k` rows and `k - 1` steps of
   * progress.
   */
  lemma CancelAfterItem(files: seq<FileRef>, outcomes: seq<Outcome>, cancels: seq<bool>, k: nat)
    requires |outcomes| == |files| && |cancels| == |files|
    requires 1 <= k <= |files|
    requires forall j :: 0 <= j < k - 1 ==> !Halts(outcomes[j], cancels[j])
    requires !outcomes[k - 1].Interrupted? && cancels[k - 1]
    ensures Batch(files, outcomes, cancels).stop == Cancelled
    ensures |Batch(files, outcomes, cancels).rows| == k
    ensures Batch(files, outcomes, cancels).progress == k - 1
  {
    BatchStopsAtFirstHalt(files, outcomes, cancels);
  }

  /**
   * An interrupted run of file `k` (counting from 1), with nothing halting
   * the loop before, ends the batch with that file's row left empty.
   */
  lemma InterruptAtItem(files: seq<FileRef>, outcomes: seq<Outcome>, cancels: seq<bool>, k: nat)
    requires |outcomes| == |files| && |cancels| == |files|
    requires 1 <= k <= |files|
    requires forall j :: 0 <= j < k - 1 ==> !Halts(outcomes[j], cancels[j])
    requires outcomes[k - 1].Interrupted?
    ensures Batch(files, outcomes, cancels).stop == Aborted
    ensures |Batch(files, outcomes, cancels).rows| == k
    ensures Batch(files, outcomes, cancels).rows[k - 1] == Row(files[k - 1].name, map[])
  {
    BatchStopsAtFirstHalt(files, outcomes, cancels);
    BatchRowsFollowFiles(files, outcomes, cancels, 0);
  }

  /**
   * In the row of a file whose run succeeded, every output of that run sits
   * in the column of its name and no other cell is set.
   */
  lemma SucceededRowCells(files: seq<FileRef>, outcomes: seq<Outcome>, cancels: seq<bool>, j: nat)
    requires |outcomes| == |files| && |cancels| == |files|
    requires j < |Batch(files, outcomes, cancels).rows|
    requires outcomes[j].Succeeded? && DistinctKeys(outcomes[j].outputs)
    ensures var cells := Batch(files, outcomes, cancels).rows[j].cells;
      && cells.Keys == OutputKeys(outcomes[j].outputs)
      && forall k :: 0 <= k < |outcomes[j].outputs| ==> cells[outcomes[j].outputs[k].key] == outcomes[j].outputs[k].value
  {
    BatchRowsFollowFiles(files, outcomes, cancels, 0);
    WithOutputsCells(map[], outcomes[j].outputs);
  }

  /**
   * The scenario of `testModuleBatchProcessor`: three files through a script
   * whose only output `result` is its input. The table `run` leaves, with
   * the script's outputs as columns, has one column headed `result` and
   * three rows, the last labelled `quo.txt` and holding that file.
   */
  lemma ThreeFileScenario(info: ModuleInfo)
    requires info.outputs == ["result"]
    ensures var files := [FileRef("", "foo.txt"), FileRef("", "bar.txt"), FileRef("", "quo.txt")];
      var outcomes := seq(3, k requires 0 <= k < 3 => Succeeded([Output("result", FileValue(files[k]))]));
      var r := Batch(files, outcomes, [false, false, false]);
      var table := Table(info.outputs, r.rows);
      |table.columns| == 1 && table.columns[0] == "result"
      && |table.rows| == 3 && table.rows[2].header == "quo.txt" && r.stop == Completed && r.progress == 3
      && table.rows[2].cells == map["result" := FileValue(FileRef("", "quo.txt"))]
  {
    var files := [FileRef("", "foo.txt"), FileRef("", "bar.txt"), FileRef("", "quo.txt")];
    var outcomes := seq(3, k requires 0 <= k < 3 => Succeeded([Output("result", FileValue(files[k]))]));
    BatchWithoutHaltsCompletes(files, outcomes, [false, false, false]);
    BatchRowsFollowFiles(files, outcomes, [false, false, false], 0);
    var last := Output("result", FileValue(files[2]));
    assert outcomes[2] == Succeeded([last]);
    assert WithOutputs(map[], [last]) == map["result" := FileValue(FileRef("", "quo.txt"))];
  }

  /** The names of some module items, in their order. */
  function ItemNames(items: seq<ModuleItem>): seq<string> {
    seq(|items|, k requires 0 <= k < |items| => items[k].name)
  }

  /** The error messages the service logs while `count` files are filled into an item it has no handler for. */
  function RepeatEntry(e: LogEntry, count: nat): (r: seq<LogEntry>)
    ensures |r| == count && forall k :: 0 <= k < count ==> r[k] == e
  {
    if count == 0 then [] else RepeatEntry(e, count - 1) + [e]
  }

  /** Every name offered by `initInputChoice` names an input of the module, so `run` can look it up. */
  lemma ChoicesNameInputs(providers: seq<Provider>, info: ModuleInfo)
    ensures forall c :: c in ItemNames(BatchableInputs(providers, info.inputs)) ==> InputNamed(info, c).Some?
  {
    var compatible := BatchableInputs(providers, info.inputs);
    forall c | c in ItemNames(compatible) ensures InputNamed(info, c).Some? {
      var k :| 0 <= k < |compatible| && ItemNames(compatible)[k] == c;
      assert compatible[k] in compatible;
      var j :| 0 <= j < |info.inputs| && info.inputs[j] == compatible[k];
      assert info.inputs[j].name == c;
    }
  }

  /** The service's log once the first `processed` files are filled into `item`: one error per file without a handler. */
  function ServiceLogAfter(handled: bool, item: ModuleItem, before: seq<LogEntry>, processed: nat): seq<LogEntry> {
    if handled then before else before + RepeatEntry(Error(NoHandlerMessage(item)), processed)
  }

  /**
   * The module's values once the first `processed` files are filled into
   * `item`: what the handler stores for the last of them, when there is a
   * handler.
   */
  function ValuesAfter(handler: Option<Provider>, item: ModuleItem, files: seq<FileRef>, processed: nat): map<string, Value>
    requires processed <= |files|
  {
    if handler.Some? && processed > 0 then map[item.name := StoredValue(handler.value, files[processed - 1])] else map[]
  }

  /** What `fillInput` logs about one file. */
  function FillLog(handled: bool, item: ModuleItem): seq<LogEntry> {
    if handled then [] else [Error(NoHandlerMessage(item))]
  }

  /** What `fillInput` does to the module's values with one file. */
  function FillValues(handler: Option<Provider>, item: ModuleItem, values: map<string, Value>, file: FileRef): map<string, Value> {
    if handler.Some? then values[item.name := StoredValue(handler.value, file)] else values
  }

  /** Filling one more file, as `fillInput` does, extends what filling the files before it left behind. */
  lemma FilledOneMore(handler: Option<Provider>, item: ModuleItem, before: seq<LogEntry>, files: seq<FileRef>, processed: nat)
    requires processed < |files|
    ensures ServiceLogAfter(handler.Some?, item, before, processed) + FillLog(handler.Some?, item)
         == ServiceLogAfter(handler.Some?, item, before, processed + 1)
    ensures FillValues(handler, item, ValuesAfter(handler, item, files, processed), files[processed])
         == ValuesAfter(handler, item, files, processed + 1)
  {
    if handler.None? {
      AppendAssoc(before, RepeatEntry(Error(NoHandlerMessage(item)), processed), [Error(NoHandlerMessage(item))]);
    } else if processed > 0 {
      var p := handler.value;
      assert map[item.name := StoredValue(p, files[processed - 1])][item.name := StoredValue(p, files[processed])]
          == map[item.name := StoredValue(p, files[processed])];
    }
  }

  /**
   * The part of `run` that starts the output table: a new table with one
   * column per output of the module, in order, each output marked resolved.
   */
  method StartOutputTable(scriptModule: Module) returns (table: Table)
    modifies scriptModule`resolvedOutputs
    ensures table == Table(scriptModule.info.outputs, [])
    ensures scriptModule.resolvedOutputs == old(scriptModule.resolvedOutputs) + set o | o in scriptModule.info.outputs
  {
    table := EmptyTable;
    var outputs := scriptModule.info.outputs;
    for k := 0 to |outputs|
      invariant table == Table(outputs[..k], [])
      invariant scriptModule.resolvedOutputs == old(scriptModule.resolvedOutputs) + set o | o in outputs[..k]
    {
      assert outputs[..k + 1] == outputs[..k] + [outputs[k]];
      table := AppendColumn(table, outputs[k]);
      scriptModule.ResolveOutput(outputs[k]);
    }
    assert outputs[..|outputs|] == outputs;
  }

  /**
   * The command's parameters and output: the batch service, the module to
   * run, the chosen input (`null` until chosen), the input files, the result
   * table (`null` until `run`), what it has logged, and the initializer's
   * effects on the `inputChoice` parameter: whether it is resolved and which
   * choices it offers.
   */
  class ModuleBatchProcessor {
    const service: FileBatchService
    const moduleInfo: ModuleInfo
    var inputChoice: Option<string>
    var inputFileList: seq<FileRef>
    var inputChoiceResolved: bool
    var choices: seq<string>
    var outputTable: Option<Table>
    var log: seq<LogEntry>

    /** The command with its parameters as given in the input map of its launch. */
    constructor (service: FileBatchService, moduleInfo: ModuleInfo, inputChoice: Option<string>, inputFileList: seq<FileRef>)
      ensures this.service == service && this.moduleInfo == moduleInfo
      ensures this.inputChoice == inputChoice && this.inputFileList == inputFileList
      ensures !inputChoiceResolved && choices == [] && outputTable == None && log == []
    {
      this.service := service;
      this.moduleInfo := moduleInfo;
      this.inputChoice := inputChoice;
      this.inputFileList := inputFileList;
      inputChoiceResolved := false;
      choices := [];
      outputTable := None;
      log := [];
    }

    /**
     * `initInputChoice()`: with one batchable input, choose it and resolve
     * the choice; with several, offer their names as choices; with none, log
     * an error.
     */
    method InitInputChoice()
      modifies this`inputChoice, this`inputChoiceResolved, this`choices, this`log
      ensures var compatible := BatchableInputs(service.providers, moduleInfo.inputs);
        && (|compatible| == 1 ==>
              inputChoice == Some(compatible[0].name) && inputChoiceResolved
              && choices == old(choices) && log == old(log))
        && (|compatible| > 1 ==>
              inputChoice == old(inputChoice) && inputChoiceResolved == old(inputChoiceResolved)
              && choices == ItemNames(compatible) && log == old(log))
        && (|compatible| == 0 ==>
              inputChoice == old(inputChoice) && inputChoiceResolved == old(inputChoiceResolved)
              && choices == old(choices) && log == old(log) + [Error(NoCompatibleInputsMessage)])
    {
      var compatible := BatchableInputs(service.providers, moduleInfo.inputs);
      if |compatible| == 1 {
        inputChoice := Some(compatible[0].name);
        inputChoiceResolved := true;
      } else if |compatible| > 1 {
        choices := ItemNames(compatible);
      } else {
        log := log + [Error(NoCompatibleInputsMessage)];
      }
    }

    /**
     * `processFile(module, item, file)`: fill the file into the item, append
     * the file's row, and on success write every output into that row.
     * Answers whether the loop may go on: false only when the run was
     * interrupted.
     */
    method ProcessFile(scriptModule: Module, item: ModuleItem, file: FileRef, outcome: Outcome) returns (proceed: bool)
      requires outputTable.Some? && FitsOutputs(outcome, outputTable.value.columns)
      modifies this`outputTable, this`log, service`log, scriptModule`values
      ensures proceed == !outcome.Interrupted?
      ensures outputTable == Some(Table(old(outputTable.value.columns), old(outputTable.value.rows) + [RowOf(file, outcome)]))
      ensures log == old(log) + FailureLog(outcome)
      ensures var handler := GetHandler(service.providers, OfClass(FileClass, item));
        service.log == old(service.log) + FillLog(handler.Some?, item)
        && scriptModule.values == FillValues(handler, item, old(scriptModule.values), file)
    {
      service.FillInput(scriptModule, item, file);
      outputTable := Some(AppendRow(outputTable.value, file.name));
      match outcome {
        case Succeeded(outputs) =>
          WriteOutputs(outputs);
          return true;
        case ExecutionFailed =>
          log := log + FailureLog(outcome);
          return true;
        case Interrupted =>
          log := log + FailureLog(outcome);
          return false;
      }
    }

    /**
     * The loop of `processFile` over the outputs of a successful run: set
     * each output's cell in the last row, the row just appended.
     */
    method WriteOutputs(outputs: seq<Output>)
      requires outputTable.Some? && |outputTable.value.rows| > 0
      requires forall k :: 0 <= k < |outputs| ==> outputs[k].key in outputTable.value.columns
      modifies this`outputTable
      ensures var t := old(outputTable.value);
        var last := |t.rows| - 1;
        outputTable == Some(Table(t.columns, t.rows[..last] + [Row(t.rows[last].header, WithOutputs(t.rows[last].cells, outputs))]))
    {
      ghost var t := outputTable.value;
      ghost var last := |t.rows| - 1;
      for k := 0 to |outputs|
        invariant outputTable.Some? && outputTable.value.columns == t.columns
        invariant |outputTable.value.rows| == |t.rows| && outputTable.value.rows[..last] == t.rows[..last]
        invariant outputTable.value.rows[last].header == t.rows[last].header
        invariant WithOutputs(outputTable.value.rows[last].cells, outputs[k..]) == WithOutputs(t.rows[last].cells, outputs)
      {
        var current := outputTable.value;
        assert outputs[k..][1..] == outputs[k + 1..];
        outputTable := SetCell(current, outputs[k].key, |current.rows| - 1, outputs[k].value);
        assert outputTable.value.rows[..last] == current.rows[..last];
      }
      assert outputTable.value.rows == t.rows[..last] + [outputTable.value.rows[last]];
    }

    /**
     * `run()`: create the module, resolve the chosen input and every output,
     * start a table with one column per output and a task counting the
     * files, then process the files in order until all are done, a run is
     * interrupted or the task is cancelled. The task and the module instance,
     * locals of `run`, are returned so that their final state can be stated.
     */
    method Run(outcomes: seq<Outcome>, cancels: seq<bool>) returns (task: Task, scriptModule: Module)
      requires inputChoice.Some? && InputNamed(moduleInfo, inputChoice.value).Some?
      requires |outcomes| == |inputFileList| && |cancels| == |inputFileList|
      requires forall k :: 0 <= k < |outcomes| ==> FitsOutputs(outcomes[k], moduleInfo.outputs)
      modifies this`outputTable, this`log, service`log
      ensures var result := Batch(inputFileList, outcomes, cancels);
        && outputTable == Some(Table(moduleInfo.outputs, result.rows))
        && log == old(log) + result.log
        && fresh(task) && task.name == (if moduleInfo.name.Some? then moduleInfo.name.value else DefaultTaskName)
        && task.progressMaximum == |inputFileList| && task.progressValue == result.progress && task.finished
      ensures fresh(scriptModule) && scriptModule.info == moduleInfo
      ensures scriptModule.resolvedInputs == {inputChoice.value}
      ensures scriptModule.resolvedOutputs == set o | o in moduleInfo.outputs
      ensures var item := InputNamed(moduleInfo, inputChoice.value).value;
        var handler := GetHandler(service.providers, OfClass(FileClass, item));
        var processed := |Batch(inputFileList, outcomes, cancels).rows|;
        service.log == ServiceLogAfter(handler.Some?, item, old(service.log), processed)
        && scriptModule.values == ValuesAfter(handler, item, inputFileList, processed)
    {
      var item := InputNamed(moduleInfo, inputChoice.value).value;
      scriptModule := CreateModule(inputChoice.value);
      task := CreateTask();
      ProcessFiles(scriptModule, item, task, outcomes, cancels);
      task.Finish();
    }

    /**
     * The start of `run`: a fresh instance of the module with the chosen
     * input resolved, and the table with one column per output, each output
     * resolved.
     */
    method CreateModule(inputName: string) returns (scriptModule: Module)
      modifies this`outputTable
      ensures fresh(scriptModule) && scriptModule.info == moduleInfo && scriptModule.values == map[]
      ensures scriptModule.resolvedInputs == {inputName}
      ensures scriptModule.resolvedOutputs == set o | o in moduleInfo.outputs
      ensures outputTable == Some(Table(moduleInfo.outputs, []))
    {
      scriptModule := new Module(moduleInfo);
      scriptModule.ResolveInput(inputName);
      var table := StartOutputTable(scriptModule);
      outputTable := Some(table);
    }

    /** The task of `run`: named after the module (`Batch:` when it has no name), counting up to the number of files. */
    method CreateTask() returns (task: Task)
      ensures fresh(task) && task.name == (if moduleInfo.name.Some? then moduleInfo.name.value else DefaultTaskName)
      ensures task.progressMaximum == |inputFileList| && task.progressValue == 0 && !task.finished
    {
      var taskName := DefaultTaskName;
      if moduleInfo.name.Some? {
        taskName := moduleInfo.name.value;
      }
      task := new Task(taskName);
      task.SetProgressMaximum(|inputFileList|);
    }

    /**
     * The loop of `run` over the input files, in their order: process each
     * one, stop after an interrupted run or once the task is cancelled, and
     * otherwise advance the task's progress by one.
     */
    method ProcessFiles(scriptModule: Module, item: ModuleItem, task: Task, outcomes: seq<Outcome>, cancels: seq<bool>)
      requires outputTable.Some? && outputTable.value.rows == []
      requires |outcomes| == |inputFileList| && |cancels| == |inputFileList|
      requires forall k :: 0 <= k < |outcomes| ==> FitsOutputs(outcomes[k], outputTable.value.columns)
      requires task.progressValue == 0 && scriptModule.values == map[]
      modifies this`outputTable, this`log, service`log, scriptModule`values, task`progressValue
      ensures var result := Batch(inputFileList, outcomes, cancels);
        && outputTable == Some(Table(old(outputTable.value.columns), result.rows))
        && log == old(log) + result.log
        && task.progressValue == result.progress
      ensures var handler := GetHandler(service.providers, OfClass(FileClass, item));
        var processed := |Batch(inputFileList, outcomes, cancels).rows|;
        service.log == ServiceLogAfter(handler.Some?, item, old(service.log), processed)
        && scriptModule.values == ValuesAfter(handler, item, inputFileList, processed)
    {
      var files := inputFileList;
      ghost var handler := GetHandler(service.providers, OfClass(FileClass, item));
      ghost var columns := outputTable.value.columns;
      ghost var startLog := log;
      ghost var startServiceLog := service.log;
      ghost var result := Batch(files, outcomes, cancels);
      ghost var batchLog: seq<LogEntry> := [];
      ghost var processed := 0;
      var i := 0;
      while i < |files|
        invariant 0 <= i <= |files| && processed == i
        invariant outputTable.Some? && outputTable.value.columns == columns && |outputTable.value.rows| == i
        invariant log == startLog + batchLog
        invariant task.progressValue == i
        invariant result == Prepend(outputTable.value.rows, i, batchLog, BatchFrom(files, outcomes, cancels, i))
        invariant service.log == ServiceLogAfter(handler.Some?, item, startServiceLog, i)
        invariant scriptModule.values == ValuesAfter(handler, item, files, i)
      {
        ghost var rows := outputTable.value.rows;
        ghost var logged := batchLog;
        var proceed := ProcessFile(scriptModule, item, files[i], outcomes[i]);
        FilledOneMore(handler, item, startServiceLog, files, i);
        assert scriptModule.values == ValuesAfter(handler, item, files, i + 1);
        assert service.log == ServiceLogAfter(handler.Some?, item, startServiceLog, i + 1);
        processed := i + 1;
        batchLog := batchLog + FailureLog(outcomes[i]);
        AppendAssoc(startLog, logged, FailureLog(outcomes[i]));
        if !proceed || cancels[i] {
          BatchHaltsAt(files, outcomes, cancels, i, rows, logged);
          log := log + [TerminatingWarning];
          AppendAssoc(startLog, batchLog, [TerminatingWarning]);
          batchLog := batchLog + [TerminatingWarning];
          break;
        }
        BatchContinuesAt(files, outcomes, cancels, i, rows, logged);
        task.SetProgressValue(task.progressValue + 1);
        i := i + 1;
      }
      assert result.rows == outputTable.value.rows && result.progress == task.progressValue && result.log == batchLog;
      assert processed == |result.rows|;
    }
  }
}
