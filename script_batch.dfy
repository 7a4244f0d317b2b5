/**
 * The two commands that batch-process a folder with a script:
 * `FileScriptBatchProcessor` (the script is a file) and
 * `MenuScriptBatchProcessor` (the script is picked from the menu). Each keeps
 * the list of files its folder, filter and pattern select, with a message
 * saying how many were found, and its `run` launches the module batch
 * processor with the script and that list.
 *
 * What the commons-io filters accept, whether a regular expression compiles,
 * what the script service reads from a script file and what the convert
 * service can convert a file to come from outside and are given as
 * functions.
 */
module ScriptBatch {
  import opened Wrappers
  import opened Text
  import opened Runtime
  import opened Services
  import opened FileListing

  const WildcardChoice := "Wildcard"
  const RegexChoice := "Regex"
  const DefaultPattern := "*.tif"
  /** The placeholder the message shows before a folder is chosen. */
  const PlaceholderMessage := " "
  const SyntaxErrorMessage := "Syntax error in regex."

  /**
   * The filter the `switch` on the filter choice builds from the pattern:
   * `Wildcard` selects the wildcard filter; `Regex`, and any other choice,
   * falls through to the regular-expression filter.
   */
  function ChooseFilter(choice: string, pattern: string): (r: NameFilter)
    ensures r.pattern == pattern
    ensures r.WildcardFilter? <==> choice == WildcardChoice
  {
    if choice == WildcardChoice then WildcardFilter(pattern) else RegexFilter(pattern)
  }

  /** Both spellings other than `Wildcard`, the offered `Regex` and any other, give the regular-expression filter. */
  lemma NonWildcardIsRegex(choice: string, pattern: string)
    requires choice != WildcardChoice
    ensures ChooseFilter(choice, pattern) == RegexFilter(pattern) == ChooseFilter(RegexChoice, pattern)
  {
  }

  /** Building the filter throws `PatternSyntaxException` only for a regular expression that does not compile. */
  predicate PatternError(filter: NameFilter, compiles: string -> bool) {
    filter.RegexFilter? && !compiles(filter.pattern)
  }

  /** `"Found " + fileList.size() + " files."`. */
  function FoundMessage(n: nat): string {
    "Found " + NatToString(n) + " files."
  }

  /** `"This script contains " + nCompatibleInputs + " compatible inputs."`. */
  function CompatibleMessage(n: nat): string {
    "This script contains " + NatToString(n) + " compatible inputs."
  }

  /** A number written between a fixed prefix and suffix can be read back: different numbers give different texts. */
  lemma FramedNumberInjective(prefix: string, suffix: string, m: nat, n: nat)
    requires prefix + NatToString(m) + suffix == prefix + NatToString(n) + suffix
    ensures m == n
  {
    var a := prefix + NatToString(m) + suffix;
    var b := prefix + NatToString(n) + suffix;
    assert |NatToString(m)| == |NatToString(n)|;
    assert NatToString(m) == a[|prefix|..|a| - |suffix|];
    assert NatToString(n) == b[|prefix|..|b| - |suffix|];
    NatToStringInjective(m, n);
  }

  /** The message tells the number of files found, and it is never the error message. */
  lemma FoundMessageTellsCount(m: nat, n: nat)
    ensures FoundMessage(m) == FoundMessage(n) <==> m == n
    ensures FoundMessage(m) != SyntaxErrorMessage
  {
    if FoundMessage(m) == FoundMessage(n) {
      FramedNumberInjective("Found ", " files.", m, n);
    }
    assert FoundMessage(m)[0] == 'F' != SyntaxErrorMessage[0];
  }

  /** The script message tells the number of compatible inputs. */
  lemma CompatibleMessageTellsCount(m: nat, n: nat)
    ensures CompatibleMessage(m) == CompatibleMessage(n) <==> m == n
  {
    if CompatibleMessage(m) == CompatibleMessage(n) {
      FramedNumberInjective("This script contains ", " compatible inputs.", m, n);
    }
  }

  /**
   * What a directory callback leaves: on a pattern error no list (`null`)
   * and the error message; otherwise the walk of the folder and the number
   * of files found.
   */
  predicate ListedAs(folder: Option<Node>, filter: NameFilter, recursive: bool, matcher: Matcher,
                     compiles: string -> bool, fileList: Option<seq<FileRef>>, message: string)
    requires folder.Some? ==> folder.value.Folder?
  {
    && (fileList.None? <==> PatternError(filter, compiles))
    && (fileList.None? ==> message == SyntaxErrorMessage)
    && (fileList.Some? ==>
          folder.Some? && fileList.value == Collect(folder.value, matcher, filter, recursive)
          && message == FoundMessage(|fileList.value|))
  }

  /** How many of the items the convert service can fill from a `File`. */
  function CountConvertible(items: seq<ModuleItem>, fromFile: ClassName -> bool): nat {
    if items == [] then 0
    else CountConvertible(items[..|items| - 1], fromFile) + (if fromFile(items[|items| - 1].itemType) then 1 else 0)
  }

  /**
   * The count is at most the number of inputs; it is zero exactly when no
   * input is convertible and the number of inputs exactly when all are.
   */
  lemma {:induction false} CountConvertibleBounds(items: seq<ModuleItem>, fromFile: ClassName -> bool)
    ensures CountConvertible(items, fromFile) <= |items|
    ensures CountConvertible(items, fromFile) == 0 <==> forall k :: 0 <= k < |items| ==> !fromFile(items[k].itemType)
    ensures CountConvertible(items, fromFile) == |items| <==> forall k :: 0 <= k < |items| ==> fromFile(items[k].itemType)
  {
    if items != [] {
      var front := items[..|items| - 1];
      CountConvertibleBounds(front, fromFile);
      assert forall k :: 0 <= k < |front| ==> front[k] == items[k];
    }
  }

  /** The module info as an input map value: `null` when there is none. */
  function InfoOrNull(info: Option<ModuleInfo>): Arg {
    if info.Some? then InfoArg(info.value) else NullArg
  }

  /** A folder as an input map value: `null` when there is none. */
  function FolderOrNull(folder: Option<FileRef>): Arg {
    if folder.Some? then FolderArg(folder.value) else NullArg
  }

  /**
   * `FileScriptBatchProcessor`: the script file and its message, the folder
   * (`None` when `null` or when it does not exist), whether to recurse, the
   * filter choice and pattern, the file message, and the file list and
   * module info the callbacks keep (`None` for `null`).
   */
  class FileScriptBatchProcessor {
    var scriptFile: Option<FileRef>
    var scriptMessage: string
    var inputFolder: Option<Node>
    var recursive: bool
    var filterChoice: string
    var pattern: string
    var message: string
    var fileList: Option<seq<FileRef>>
    var moduleInfo: Option<ModuleInfo>

    /** The command before any parameter is set: the field initializers of the source. */
    constructor ()
      ensures scriptFile == None && scriptMessage == "" && inputFolder == None && !recursive
      ensures filterChoice == WildcardChoice && pattern == DefaultPattern && message == PlaceholderMessage
      ensures fileList == None && moduleInfo == None
    {
      scriptFile := None;
      scriptMessage := "";
      inputFolder := None;
      recursive := false;
      filterChoice := WildcardChoice;
      pattern := DefaultPattern;
      message := PlaceholderMessage;
      fileList := None;
      moduleInfo := None;
    }

    /**
     * `directoryCallback()`: nothing without an existing folder; otherwise
     * build the filter, walk the folder, and report the count or the
     * pattern error.
     */
    method DirectoryCallback(matcher: Matcher, compiles: string -> bool)
      requires inputFolder.Some? ==> inputFolder.value.Folder?
      modifies this`fileList, this`message
      ensures inputFolder.None? ==> fileList == old(fileList) && message == old(message)
      ensures inputFolder.Some? ==>
        ListedAs(inputFolder, ChooseFilter(filterChoice, pattern), recursive, matcher, compiles, fileList, message)
    {
      if inputFolder.None? {
        return;
      }
      var inputFilter: NameFilter;
      if filterChoice == WildcardChoice {
        inputFilter := WildcardFilter(pattern);
      } else {
        inputFilter := RegexFilter(pattern);
      }
      if PatternError(inputFilter, compiles) {
        fileList := None;
        message := SyntaxErrorMessage;
      } else {
        var list := PopulateFileList(inputFolder.value, matcher, inputFilter, recursive);
        fileList := Some(list);
      }
      if fileList.Some? {
        message := FoundMessage(|fileList.value|);
      }
    }

    /**
     * `scriptFileCallback()`: nothing without a script file; otherwise read
     * its module info and report how many inputs can be filled from a file.
     */
    method ScriptFileCallback(getScript: FileRef -> ModuleInfo, fromFile: ClassName -> bool)
      modifies this`moduleInfo, this`scriptMessage
      ensures scriptFile.None? ==> moduleInfo == old(moduleInfo) && scriptMessage == old(scriptMessage)
      ensures scriptFile.Some? ==>
        var info := getScript(scriptFile.value);
        moduleInfo == Some(info) && scriptMessage == CompatibleMessage(CountConvertible(info.inputs, fromFile))
    {
      if scriptFile.None? {
        return;
      }
      var info := getScript(scriptFile.value);
      moduleInfo := Some(info);
      var nCompatibleInputs := 0;
      for k := 0 to |info.inputs|
        invariant nCompatibleInputs == CountConvertible(info.inputs[..k], fromFile)
      {
        assert info.inputs[..k + 1][..k] == info.inputs[..k];
        if fromFile(info.inputs[k].itemType) {
          nCompatibleInputs := nCompatibleInputs + 1;
        }
      }
      assert info.inputs[..|info.inputs|] == info.inputs;
      scriptMessage := CompatibleMessage(nCompatibleInputs);
    }

    /**
     * `run()`: compute the file list and the module info only where the
     * callbacks have not, then launch the module batch processor with the
     * module info and the files in list order. `None` where the list is
     * still `null` and `fileList.toArray` throws.
     */
    method Run(matcher: Matcher, compiles: string -> bool, getScript: FileRef -> ModuleInfo, fromFile: ClassName -> bool)
      returns (launch: Option<Launch>)
      requires inputFolder.Some? ==> inputFolder.value.Folder?
      modifies this`fileList, this`message, this`moduleInfo, this`scriptMessage
      ensures old(fileList).Some? ==> fileList == old(fileList) && message == old(message)
      ensures old(fileList).None? && inputFolder.None? ==> fileList == None && message == old(message)
      ensures old(fileList).None? && inputFolder.Some? ==>
        ListedAs(inputFolder, ChooseFilter(filterChoice, pattern), recursive, matcher, compiles, fileList, message)
      ensures old(moduleInfo).Some? || scriptFile.None? ==>
        moduleInfo == old(moduleInfo) && scriptMessage == old(scriptMessage)
      ensures old(moduleInfo).None? && scriptFile.Some? ==>
        var info := getScript(scriptFile.value);
        moduleInfo == Some(info) && scriptMessage == CompatibleMessage(CountConvertible(info.inputs, fromFile))
      ensures launch.None? <==> fileList.None?
      ensures fileList.Some? ==>
        launch == Some(LaunchModuleBatchProcessor(map["moduleInfo" := InfoOrNull(moduleInfo), "inputFileList" := FileListArg(fileList.value)]))
    {
      if fileList.None? {
        DirectoryCallback(matcher, compiles);
      }
      if moduleInfo.None? {
        ScriptFileCallback(getScript, fromFile);
      }
      if fileList.None? {
        return None;
      }
      var inputMap := map["moduleInfo" := InfoOrNull(moduleInfo)];
      var fileArray := fileList.value;
      inputMap := inputMap["inputFileList" := FileListArg(fileArray)];
      launch := Some(LaunchModuleBatchProcessor(inputMap));
    }
  }

  /**
   * `MenuScriptBatchProcessor`: the chosen script's module, the folder
   * (`None` for `null`), whether to recurse, the filter choice and pattern,
   * the message, the optional output folder, and the filter and file list
   * the callback keeps (`None` for `null`).
   */
  class MenuScriptBatchProcessor {
    var scriptInfo: ModuleInfo
    var inputFolder: Option<Node>
    var recursive: bool
    var filterChoice: string
    var pattern: string
    var message: string
    var outputFolder: Option<FileRef>
    var inputFilter: Option<NameFilter>
    var fileList: Option<seq<FileRef>>

    /** The command with the script chosen and the other fields at their initial values. */
    constructor (scriptInfo: ModuleInfo)
      ensures this.scriptInfo == scriptInfo && inputFolder == None && !recursive
      ensures filterChoice == WildcardChoice && pattern == DefaultPattern && message == PlaceholderMessage
      ensures outputFolder == None && inputFilter == None && fileList == None
    {
      this.scriptInfo := scriptInfo;
      inputFolder := None;
      recursive := false;
      filterChoice := WildcardChoice;
      pattern := DefaultPattern;
      message := PlaceholderMessage;
      outputFolder := None;
      inputFilter := None;
      fileList := None;
    }

    /**
     * `directoryCallback()`: build and keep the filter, walk the folder,
     * and report the count or the pattern error. There is no check for a
     * missing folder: only a pattern error, thrown before the walk, saves
     * a `null` folder from a `NullPointerException`.
     */
    method DirectoryCallback(matcher: Matcher, compiles: string -> bool)
      requires inputFolder.Some? ==> inputFolder.value.Folder?
      requires inputFolder.Some? || PatternError(ChooseFilter(filterChoice, pattern), compiles)
      modifies this`inputFilter, this`fileList, this`message
      ensures var filter := ChooseFilter(filterChoice, pattern);
        && ListedAs(inputFolder, filter, recursive, matcher, compiles, fileList, message)
        && inputFilter == (if PatternError(filter, compiles) then old(inputFilter) else Some(filter))
    {
      var filter: NameFilter;
      if filterChoice == WildcardChoice {
        filter := WildcardFilter(pattern);
      } else {
        filter := RegexFilter(pattern);
      }
      if PatternError(filter, compiles) {
        fileList := None;
        message := SyntaxErrorMessage;
      } else {
        inputFilter := Some(filter);
        var list := PopulateFileList(inputFolder.value, matcher, filter, recursive);
        fileList := Some(list);
      }
      if fileList.Some? {
        message := FoundMessage(|fileList.value|);
      }
    }

    /**
     * `run()`: launch the module batch processor with the script's module,
     * the files in list order and the output folder. `None` where the list
     * is `null` and `fileList.toArray` throws.
     */
    method Run() returns (launch: Option<Launch>)
      ensures launch.None? <==> fileList.None?
      ensures fileList.Some? ==>
        launch == Some(LaunchModuleBatchProcessor(map[
          "moduleInfo" := InfoArg(scriptInfo),
          "inputFileList" := FileListArg(fileList.value),
          "outputFolder" := FolderOrNull(outputFolder)]))
    {
      if fileList.None? {
        return None;
      }
      var inputMap := map["moduleInfo" := InfoArg(scriptInfo)];
      var fileArray := fileList.value;
      inputMap := inputMap["inputFileList" := FileListArg(fileArray)];
      inputMap := inputMap["outputFolder" := FolderOrNull(outputFolder)];
      launch := Some(LaunchModuleBatchProcessor(inputMap));
    }
  }
}
