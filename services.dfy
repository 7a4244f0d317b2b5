/**
 * `BatchService` and its implementation `FileBatchService`: which inputs of a
 * module can be batch-processed, filling such an input from a file through
 * the provider found for it, and launching the batch processor for a module.
 */
module Services {
  import opened Wrappers
  import opened Runtime
  import opened BatchInputs
  import opened Providers

  /** A value in the input map of a command launched through the command service; `NullArg` is Java's `null`. */
  datatype Arg = InfoArg(info: ModuleInfo) | FileListArg(files: seq<FileRef>) | FolderArg(folder: FileRef) | NullArg

  /** `commandService.run(ModuleBatchProcessor.class, true, inputMap)`: the launch request and its input map. */
  datatype Launch = LaunchModuleBatchProcessor(inputs: map<string, Arg>)

  /** `a` is `b` with some elements left out, the rest kept in order. */
  predicate IsSubsequence<T(==)>(a: seq<T>, b: seq<T>)
    decreases |b|
  {
    if a == [] then true
    else if b == [] then false
    else if a[0] == b[0] then IsSubsequence(a[1..], b[1..])
    else IsSubsequence(a, b[1..])
  }

  /**
   * `getHandler(input)`: the first provider, in priority order, whose
   * `supports` accepts the input; `None` (Java's `null`) when none does.
   */
  function GetHandler(providers: seq<Provider>, input: BatchInput): (r: Option<Provider>)
    ensures r.Some? ==> r.value in providers
    decreases |providers|
  {
    if providers == [] then None
    else if Supports(providers[0], input) then Some(providers[0])
    else GetHandler(providers[1..], input)
  }

  /**
   * The handler found is the first provider that supports the input: it
   * supports it and no provider ahead of it does; there is none exactly when
   * no provider supports the input.
   */
  lemma {:induction false} GetHandlerFirstMatch(providers: seq<Provider>, input: BatchInput)
    ensures GetHandler(providers, input).None? <==> forall k :: 0 <= k < |providers| ==> !Supports(providers[k], input)
    ensures GetHandler(providers, input).Some? ==>
      exists k :: 0 <= k < |providers| && providers[k] == GetHandler(providers, input).value
                  && Supports(providers[k], input) && forall j :: 0 <= j < k ==> !Supports(providers[j], input)
    decreases |providers|
  {
    if providers != [] && !Supports(providers[0], input) {
      var rest := providers[1..];
      GetHandlerFirstMatch(rest, input);
      forall k | 1 <= k < |providers| ensures providers[k] == rest[k - 1] {
      }
      if GetHandler(rest, input).Some? {
        var k :| 0 <= k < |rest| && rest[k] == GetHandler(rest, input).value
                 && Supports(rest[k], input) && forall j :: 0 <= j < k ==> !Supports(rest[j], input);
        assert providers[k + 1] == rest[k];
        assert forall j :: 0 <= j < k + 1 ==> !Supports(providers[j], input) by {
          forall j | 1 <= j < k + 1 ensures !Supports(providers[j], input) {
            assert providers[j] == rest[j - 1];
          }
        }
      }
    }
  }

  /**
   * `FileBatchService.supportsItem(item)`: the provider found for the item
   * under the source type `File` exists and can provide for the item.
   */
  predicate SupportsItem(providers: seq<Provider>, item: ModuleItem) {
    var handler := GetHandler(providers, OfClass(FileClass, item));
    handler.Some? && CanProvide(handler.value, item)
  }

  /**
   * `batchableInputs(info)`: the module's inputs the service supports, in
   * declaration order and none left out.
   */
  function BatchableInputs(providers: seq<Provider>, inputs: seq<ModuleItem>): (r: seq<ModuleItem>)
    ensures forall x :: x in r <==> x in inputs && SupportsItem(providers, x)
    ensures IsSubsequence(r, inputs)
    ensures |r| <= |inputs|
  {
    if inputs == [] then []
    else
      var rest := BatchableInputs(providers, inputs[1..]);
      if SupportsItem(providers, inputs[0]) then
        [inputs[0]] + rest
      else
        assert rest == [] || rest[0] != inputs[0] by {
          if rest != [] {
            assert rest[0] in rest;
          }
        }
        rest
  }

  /** The module has a batchable input exactly when the list of batchable inputs is not empty. */
  lemma SomeInputIffBatchable(providers: seq<Provider>, info: ModuleInfo)
    ensures (exists k :: 0 <= k < |info.inputs| && SupportsItem(providers, info.inputs[k]))
            <==> BatchableInputs(providers, info.inputs) != []
  {
    var r := BatchableInputs(providers, info.inputs);
    if r != [] {
      assert r[0] in r;
    }
  }

  /** An item the service supports always has a handler, so filling it never logs an error. */
  lemma SupportedItemHasHandler(providers: seq<Provider>, item: ModuleItem)
    requires SupportsItem(providers, item)
    ensures GetHandler(providers, OfClass(FileClass, item)).Some?
    ensures exists k :: 0 <= k < |providers| && Supports(providers[k], OfClass(FileClass, item))
  {
    GetHandlerFirstMatch(providers, OfClass(FileClass, item));
  }

  /** With the file provider alone, the batchable items are the `File` items not styled for saving. */
  lemma FileProviderAlone(item: ModuleItem)
    ensures SupportsItem([FileInputProvider], item) <==> item.itemType == FileClass && !HasStyle(item, SaveStyle)
    ensures item.itemType == FileClass && !HasStyle(item, SaveStyle)
            ==> GetHandler([FileInputProvider], OfClass(FileClass, item)) == Some(FileInputProvider)
  {
  }

  /**
   * Priority matters: a provider ahead of the file provider that claims the
   * lookup key but cannot provide for the item hides the file provider.
   */
  lemma EarlierProviderShadows(item: ModuleItem, name: string)
    requires item.itemType == FileClass && item.widgetStyle.None?
    ensures SupportsItem([FileInputProvider], item)
    ensures !SupportsItem([PluginProvider(name, {OfClass(FileClass, item)}, {}), FileInputProvider], item)
  {
    var ps := [PluginProvider(name, {OfClass(FileClass, item)}, {}), FileInputProvider];
    assert Supports(ps[0], OfClass(FileClass, item));
  }

  /** A script with `File`, `String`, `Integer` and `Double` parameters has exactly its `File` input batchable. */
  lemma BatchableFileInputs()
    ensures BatchableInputs([FileInputProvider], [
      ModuleItem("fileInput", FileClass, None), ModuleItem("stringInput", StringClass, None),
      ModuleItem("integerInput", IntegerClass, None), ModuleItem("doubleInput", DoubleClass, None)])
      == [ModuleItem("fileInput", FileClass, None)]
  {
    var inputs := [
      ModuleItem("fileInput", FileClass, None), ModuleItem("stringInput", StringClass, None),
      ModuleItem("integerInput", IntegerClass, None), ModuleItem("doubleInput", DoubleClass, None)];
    forall k | 0 <= k < 4 ensures SupportsItem([FileInputProvider], inputs[k]) <==> k == 0 {
      FileProviderAlone(inputs[k]);
    }
    assert BatchableInputs([FileInputProvider], inputs[3..]) == [];
    assert BatchableInputs([FileInputProvider], inputs[2..]) == [];
    assert BatchableInputs([FileInputProvider], inputs[1..]) == [];
  }

  /** A script with only `String`, `Integer` and `Double` parameters has no batchable input. */
  lemma NoCompatibleInputs()
    ensures BatchableInputs([FileInputProvider], [
      ModuleItem("stringInput", StringClass, None), ModuleItem("integerInput", IntegerClass, None),
      ModuleItem("doubleInput", DoubleClass, None)]) == []
  {
  }

  const NoCompatibleFileInputsMessage := "No compatible inputs (of type File) found."

  function NoHandlerMessage(item: ModuleItem): string {
    "No handler found for input: " + item.name
  }

  /**
   * Filling a `File` input through the file provider stores the file
   * itself, as `testFillFileInput` expects.
   */
  lemma FileInputFilledWithFile(item: ModuleItem, file: FileRef)
    requires item.itemType == FileClass && item.widgetStyle.None?
    ensures var handler := GetHandler([FileInputProvider], OfClass(FileClass, item));
      handler == Some(FileInputProvider) && StoredValue(handler.value, file) == FileValue(file)
  {
  }

  /**
   * An input of another type that only a plugin provider supports is filled
   * with what that plugin stores, which is not the file itself: the
   * situation of `testFillPathInput`, where a `Path` is expected.
   */
  lemma PluginInputFilledByPlugin(name: string, item: ModuleItem, file: FileRef)
    requires item.itemType != FileClass
    ensures var plugin := PluginProvider(name, {OfClass(FileClass, item)}, {item});
      var handler := GetHandler([FileInputProvider, plugin], OfClass(FileClass, item));
      handler == Some(plugin) && StoredValue(plugin, file) == ProvidedValue(name, file)
      && StoredValue(plugin, file) != FileValue(file)
  {
    var plugin := PluginProvider(name, {OfClass(FileClass, item)}, {item});
    assert [FileInputProvider, plugin][1..] == [plugin];
  }

  /** `FileBatchService`: the registered providers, in priority order, and what it has logged. */
  class FileBatchService {
    const providers: seq<Provider>
    var log: seq<LogEntry>

    constructor (providers: seq<Provider>)
      ensures this.providers == providers && log == []
    {
      this.providers := providers;
      log := [];
    }

    /** `supportsModule(info)`: whether some input of the module is supported; the scan stops at the first one. */
    method SupportsModule(info: ModuleInfo) returns (r: bool)
      ensures r <==> exists k :: 0 <= k < |info.inputs| && SupportsItem(providers, info.inputs[k])
    {
      for k := 0 to |info.inputs|
        invariant forall j :: 0 <= j < k ==> !SupportsItem(providers, info.inputs[j])
      {
        if SupportsItem(providers, info.inputs[k]) {
          return true;
        }
      }
      return false;
    }

    /**
     * `fillInput(module, item, file)`: with no handler for the item, log an
     * error and leave the module as it was; otherwise the handler sets the
     * item's value to what it stores for the file.
     */
    method FillInput(instance: Module, item: ModuleItem, file: FileRef)
      modifies this`log, instance`values
      ensures GetHandler(providers, OfClass(FileClass, item)).None? ==>
        log == old(log) + [Error(NoHandlerMessage(item))] && instance.values == old(instance.values)
      ensures GetHandler(providers, OfClass(FileClass, item)).Some? ==>
        var handler := GetHandler(providers, OfClass(FileClass, item)).value;
        log == old(log) && instance.values == old(instance.values)[item.name := StoredValue(handler, file)]
    {
      var handler := GetHandler(providers, OfClass(FileClass, item));
      if handler.None? {
        log := log + [Error(NoHandlerMessage(item))];
        return;
      }
      PopulateInput(handler.value, instance, item, file);
    }

    /**
     * `run(info)`: without a batchable input, log an error and launch
     * nothing; otherwise launch the module batch processor with only the
     * module info given, so that the user is asked for the rest.
     */
    method Run(info: ModuleInfo) returns (launch: Option<Launch>)
      modifies this`log
      ensures launch.None? <==> BatchableInputs(providers, info.inputs) == []
      ensures launch.None? ==> log == old(log) + [Error(NoCompatibleFileInputsMessage)]
      ensures launch.Some? ==> log == old(log)
                               && launch.value == LaunchModuleBatchProcessor(map["moduleInfo" := InfoArg(info)])
    {
      if BatchableInputs(providers, info.inputs) == [] {
        log := log + [Error(NoCompatibleFileInputsMessage)];
        return None;
      }
      var inputMap := map["moduleInfo" := InfoArg(info)];
      return Some(LaunchModuleBatchProcessor(inputMap));
    }
  }
}
