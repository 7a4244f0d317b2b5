/**
 * Stand-ins for the parts of the SciJava module framework that the batch
 * processor drives: the Java classes a parameter can have, files, the values
 * a module holds, module items and module infos, a live module instance, and
 * what waiting on one asynchronous execution of a module yields.
 */
module Runtime {
  import opened Wrappers

  /** The Java class of a module item, as far as the batch processor tells classes apart. */
  datatype ClassName =
    | FileClass
    | PathClass
    | StringClass
    | IntegerClass
    | DoubleClass
    | OtherClass(qualifiedName: string)

  /** A `java.io.File`: the path of its parent and its own name, which `getName()` returns. */
  datatype FileRef = FileRef(parent: string, name: string)

  /**
   * A value held by a module item or produced as an output. `ProvidedValue`
   * is what the `populateInput` of the named provider plugin stores for a
   * file, such as the file converted to another type.
   */
  datatype Value = FileValue(file: FileRef) | ProvidedValue(plugin: string, file: FileRef) | OpaqueValue(id: int)

  /** A `ModuleItem`: its name, its type and its widget style (`null` when it declares none). */
  datatype ModuleItem = ModuleItem(name: string, itemType: ClassName, widgetStyle: Option<string>)

  /**
   * A `ModuleInfo`: its name (possibly `null`), its input items in declaration
   * order, and the names of its outputs in the order in which the key set of
   * the module's outputs map yields them.
   */
  datatype ModuleInfo = ModuleInfo(name: Option<string>, inputs: seq<ModuleItem>, outputs: seq<string>)

  /** `ModuleInfo.getInput(name)`: the input item of that name, or `null`. */
  function InputNamed(info: ModuleInfo, name: string): (r: Option<ModuleItem>)
    ensures r.Some? ==> r.value in info.inputs && r.value.name == name
    ensures r.None? <==> forall k :: 0 <= k < |info.inputs| ==> info.inputs[k].name != name
    decreases |info.inputs|
  {
    if info.inputs == [] then None
    else if info.inputs[0].name == name then Some(info.inputs[0])
    else InputNamed(info.(inputs := info.inputs[1..]), name)
  }

  /**
   * `ModuleService.getSingleInput(module, File.class)` on a module none of
   * whose inputs is resolved yet: the one input of type `File`, or `null`
   * when there is none or more than one.
   */
  function SingleFileInput(info: ModuleInfo): (r: Option<ModuleItem>)
    ensures r.Some? ==> r.value in info.inputs && r.value.itemType == FileClass
    ensures r.Some? <==> |FileInputs(info.inputs)| == 1
  {
    var files := FileInputs(info.inputs);
    if |files| == 1 then Some(files[0]) else None
  }

  /** The inputs of type `File`, in declaration order. */
  function FileInputs(items: seq<ModuleItem>): (r: seq<ModuleItem>)
    ensures forall x :: x in r <==> x in items && x.itemType == FileClass
  {
    if items == [] then []
    else (if items[0].itemType == FileClass then [items[0]] else []) + FileInputs(items[1..])
  }

  /** One entry of the outputs map that a finished execution returns. */
  datatype Output = Output(key: string, value: Value)

  /**
   * What `future.get()` gives for one execution of a module: its outputs map
   * (the entries in iteration order), an `ExecutionException` (the module
   * failed), or an `InterruptedException` (the waiting thread was interrupted).
   */
  datatype Outcome = Succeeded(outputs: seq<Output>) | ExecutionFailed | Interrupted

  /** The keys of an outputs map are distinct. */
  predicate DistinctKeys(outputs: seq<Output>) {
    forall i, j :: 0 <= i < j < |outputs| ==> outputs[i].key != outputs[j].key
  }

  /**
   * An execution of a module returns a map whose keys are outputs the module
   * declares: the module framework's guarantee about every outcome.
   */
  predicate FitsOutputs(o: Outcome, declared: seq<string>) {
    o.Succeeded? ==>
      DistinctKeys(o.outputs) && forall k :: 0 <= k < |o.outputs| ==> o.outputs[k].key in declared
  }

  /** An entry written to a `Logger`: `log.error(message)` or `log.warn(message)`. */
  datatype LogEntry = Error(message: string) | Warn(message: string)

  /**
   * A `Task` created through the task service: its name, its progress
   * maximum and value, and whether `finish()` was called.
   */
  class Task {
    const name: string
    var progressMaximum: int
    var progressValue: int
    var finished: bool

    /** `TaskService.createTask(name)`: a task with no progress, not finished. */
    constructor (name: string)
      ensures this.name == name && progressMaximum == 0 && progressValue == 0 && !finished
    {
      this.name := name;
      progressMaximum := 0;
      progressValue := 0;
      finished := false;
    }

    method SetProgressMaximum(max: int)
      modifies this`progressMaximum
      ensures progressMaximum == max
    {
      progressMaximum := max;
    }

    method SetProgressValue(v: int)
      modifies this`progressValue
      ensures progressValue == v
    {
      progressValue := v;
    }

    method Finish()
      modifies this`finished
      ensures finished
    {
      finished := true;
    }
  }

  /** A live module instance: the values of its items and which of them are marked resolved. */
  class Module {
    const info: ModuleInfo
    var values: map<string, Value>
    var resolvedInputs: set<string>
    var resolvedOutputs: set<string>

    /** `ModuleService.createModule(info)`: a fresh instance with no values set and nothing resolved. */
    constructor (info: ModuleInfo)
      ensures this.info == info
      ensures values == map[] && resolvedInputs == {} && resolvedOutputs == {}
    {
      this.info := info;
      values := map[];
      resolvedInputs := {};
      resolvedOutputs := {};
    }

    /** `ModuleItem.setValue(module, value)`, i.e. `Module.setInput(name, value)`. */
    method SetInput(name: string, v: Value)
      modifies this`values
      ensures values == old(values)[name := v]
    {
      values := values[name := v];
    }

    /** `Module.resolveInput(name)`: the framework will not ask for this input. */
    method ResolveInput(name: string)
      modifies this`resolvedInputs
      ensures resolvedInputs == old(resolvedInputs) + {name}
    {
      resolvedInputs := resolvedInputs + {name};
    }

    /** `Module.resolveOutput(name)`: the framework will not display this output. */
    method ResolveOutput(name: string)
      modifies this`resolvedOutputs
      ensures resolvedOutputs == old(resolvedOutputs) + {name}
    {
      resolvedOutputs := resolvedOutputs + {name};
    }
  }
}
