/**
 * Batch input providers: `BatchInputProvider`, the contract of a plugin that
 * can fill one kind of module item from batch values, and
 * `FileBatchInputProvider`, the provider this repository registers, which
 * fills `File` items from files and reads the item's widget style.
 */
module Providers {
  import opened Wrappers
  import opened Text
  import opened Runtime
  import opened BatchInputs

  /** `FileWidget.SAVE_STYLE`. */
  const SaveStyle := "save"
  /** `FileWidget.DIRECTORY_STYLE`. */
  const DirectoryStyle := "directory"
  /** `FileListWidget.FILES_ONLY`. */
  const FilesOnly := "files"
  /** `FileListWidget.DIRECTORIES_ONLY`. */
  const DirectoriesOnly := "directories"
  /** The prefix of the style tokens that restrict file extensions. */
  const ExtensionsPrefix := "extensions"

  /**
   * A registered `BatchInputProvider`. `FileInputProvider` is
   * `FileBatchInputProvider`; a provider contributed by another plugin is
   * given by its answers: the lookup keys it supports and the items it can
   * provide for.
   */
  datatype Provider =
    | FileInputProvider
    | PluginProvider(pluginName: string, supported: set<BatchInput>, providable: set<ModuleItem>)

  /** The tokens of an item's widget style: `style.trim().split("\\s*,\\s*")`. */
  function StyleTokens(item: ModuleItem): seq<string>
    requires item.widgetStyle.Some?
  {
    SplitCommaList(item.widgetStyle.value)
  }

  /** `FileBatchInputProvider.hasStyle(item, style)`: false without a style, else whether a token equals `style`. */
  predicate HasStyle(item: ModuleItem, style: string) {
    item.widgetStyle.Some? && style in StyleTokens(item)
  }

  /**
   * `canProvide(item)`. The file provider takes items whose type is exactly
   * `File` and which are not meant for saving a file.
   */
  predicate CanProvide(p: Provider, item: ModuleItem) {
    match p
    case FileInputProvider => item.itemType == FileClass && !HasStyle(item, SaveStyle)
    case PluginProvider(_, _, providable) => item in providable
  }

  /** `supports(input)`, the test the handler lookup applies; the file provider asks `canProvide` of the item alone. */
  predicate Supports(p: Provider, input: BatchInput) {
    match p
    case FileInputProvider => CanProvide(p, input.moduleItem)
    case PluginProvider(_, supported, _) => input in supported
  }

  /**
   * For a style that lists tokens with `\s*,\s*` between them and blanks at
   * either end, `hasStyle` finds exactly those tokens: a whole token
   * matches, a part of one does not, and the spaces do not matter.
   */
  lemma HasStyleOfTokens(item: ModuleItem, lead: string, tokens: seq<string>, seps: seq<Separator>, trail: string, style: string)
    requires WellSeparated(tokens, seps) && AllOf(lead, IsTrimmable) && AllOf(trail, IsTrimmable)
    requires item.widgetStyle == Some(lead + JoinSeparated(tokens, seps) + trail)
    ensures HasStyle(item, style) <==> style in tokens
  {
    SplitSeparatedRoundTrip(lead, tokens, seps, trail);
  }

  /** An item whose style lists `save` is never filled by the file provider, whatever its type and spacing. */
  lemma SaveItemsRejected(item: ModuleItem, lead: string, tokens: seq<string>, seps: seq<Separator>, trail: string)
    requires WellSeparated(tokens, seps) && AllOf(lead, IsTrimmable) && AllOf(trail, IsTrimmable)
    requires item.widgetStyle == Some(lead + JoinSeparated(tokens, seps) + trail) && SaveStyle in tokens
    ensures !CanProvide(FileInputProvider, item)
    ensures forall t :: !Supports(FileInputProvider, BatchInput(t, item))
  {
    HasStyleOfTokens(item, lead, tokens, seps, trail, SaveStyle);
  }

  /** The file provider's answer to the lookup ignores the source type of the key. */
  lemma FileSupportsIgnoresSourceType(input: BatchInput)
    ensures Supports(FileInputProvider, input) <==> CanProvide(FileInputProvider, input.moduleItem)
  {
  }

  /** The style tokens that start with `extensions`, in their order. */
  function ExtensionTokens(tokens: seq<string>): seq<string> {
    if tokens == [] then []
    else
      var last := tokens[|tokens| - 1];
      ExtensionTokens(tokens[..|tokens| - 1]) + (if StartsWith(last, ExtensionsPrefix) then [last] else [])
  }

  /** The extension tokens are exactly the tokens that start with `extensions`, and never more of them than tokens. */
  lemma {:induction false} ExtensionTokensMembers(tokens: seq<string>)
    ensures |ExtensionTokens(tokens)| <= |tokens|
    ensures forall x :: x in ExtensionTokens(tokens) <==> x in tokens && StartsWith(x, ExtensionsPrefix)
  {
    if tokens != [] {
      var front := tokens[..|tokens| - 1];
      ExtensionTokensMembers(front);
      assert tokens == front + [tokens[|tokens| - 1]];
    }
  }

  /** One more token scanned adds it to the extension tokens exactly when it starts with `extensions`. */
  lemma ExtensionTokensStep(tokens: seq<string>, k: nat)
    requires k < |tokens|
    ensures ExtensionTokens(tokens[..k + 1])
      == ExtensionTokens(tokens[..k]) + (if StartsWith(tokens[k], ExtensionsPrefix) then [tokens[k]] else [])
  {
    assert tokens[..k + 1][..k] == tokens[..k];
  }

  /**
   * The target styles of `getTargetWidgetStyle`: first `directories` when the
   * item has the directory style and `files` otherwise, then the item's
   * `extensions` tokens unchanged and in order.
   */
  function TargetStyles(item: ModuleItem): (r: seq<string>)
    ensures |r| >= 1
    ensures r[0] == (if HasStyle(item, DirectoryStyle) then DirectoriesOnly else FilesOnly)
    ensures forall k :: 1 <= k < |r| ==> StartsWith(r[k], ExtensionsPrefix)
  {
    var first := if HasStyle(item, DirectoryStyle) then DirectoriesOnly else FilesOnly;
    if item.widgetStyle.None? then [first]
    else
      ExtensionTokensMembers(StyleTokens(item));
      [first] + ExtensionTokens(StyleTokens(item))
  }

  /**
   * `FileBatchInputProvider.getTargetWidgetStyle(item)`: the style the file
   * list widget needs to select batch files for `item`.
   */
  method TargetWidgetStyle(item: ModuleItem) returns (style: string)
    ensures style == Join(TargetStyles(item), ",")
  {
    var first := if HasStyle(item, DirectoryStyle) then DirectoriesOnly else FilesOnly;
    var targetStyles := [first];
    if item.widgetStyle.Some? {
      var extensions := CollectExtensions(StyleTokens(item));
      targetStyles := targetStyles + extensions;
    }
    style := Join(targetStyles, ",");
  }

  /** The loop of `getTargetWidgetStyle` over the style tokens, keeping those that start with `extensions`. */
  method CollectExtensions(styles: seq<string>) returns (extensions: seq<string>)
    ensures extensions == ExtensionTokens(styles)
  {
    extensions := [];
    for k := 0 to |styles|
      invariant extensions == ExtensionTokens(styles[..k])
    {
      ExtensionTokensStep(styles, k);
      if StartsWith(styles[k], ExtensionsPrefix) {
        extensions := extensions + [styles[k]];
      }
    }
    assert styles[..|styles|] == styles;
  }

  /** Without a widget style the target style is exactly `files`. */
  lemma TargetStyleWithoutStyle(item: ModuleItem)
    requires item.widgetStyle.None?
    ensures Join(TargetStyles(item), ",") == FilesOnly
  {
  }

  /**
   * Cutting the target style at its commas gives back the selection token
   * followed by the extension tokens: none of them holds a comma.
   */
  lemma TargetStylePieces(item: ModuleItem)
    ensures Pieces(Join(TargetStyles(item), ",")) == TargetStyles(item)
  {
    TargetStylesHaveNoComma(item);
    PiecesOfJoin(TargetStyles(item));
  }

  /** No target style holds a comma: the selection token has none, and the extension tokens come out of the split. */
  lemma TargetStylesHaveNoComma(item: ModuleItem)
    ensures forall k :: 0 <= k < |TargetStyles(item)| ==> ',' !in TargetStyles(item)[k]
  {
    var first := if HasStyle(item, DirectoryStyle) then DirectoriesOnly else FilesOnly;
    assert ',' !in first;
    if item.widgetStyle.Some? {
      var ext := ExtensionTokens(StyleTokens(item));
      ExtensionTokensNoComma(StyleTokens(item));
      PrependKeepsNoComma(first, ext);
    }
  }

  lemma PrependKeepsNoComma(first: string, rest: seq<string>)
    requires ',' !in first && forall k :: 0 <= k < |rest| ==> ',' !in rest[k]
    ensures forall k :: 0 <= k < |[first] + rest| ==> ',' !in ([first] + rest)[k]
  {
    forall k | 0 <= k < |[first] + rest| ensures ',' !in ([first] + rest)[k] {
      if k > 0 {
        assert ([first] + rest)[k] == rest[k - 1];
      }
    }
  }

  /** Kept tokens of a comma-free list are comma-free. */
  lemma ExtensionTokensNoComma(tokens: seq<string>)
    requires forall k :: 0 <= k < |tokens| ==> ',' !in tokens[k]
    ensures forall k :: 0 <= k < |ExtensionTokens(tokens)| ==> ',' !in ExtensionTokens(tokens)[k]
  {
    var ext := ExtensionTokens(tokens);
    ExtensionTokensMembers(tokens);
    forall k | 0 <= k < |ext| ensures ',' !in ext[k] {
      assert ext[k] in tokens;
    }
  }

  /**
   * The value `populateInput` stores for a file: the file itself for the
   * file provider, and for a plugin provider the value that plugin derives
   * from the file, which is never the bare file.
   */
  function StoredValue(p: Provider, file: FileRef): (v: Value)
    ensures v.FileValue? <==> p.FileInputProvider?
    ensures v.FileValue? || v.ProvidedValue?
    ensures v.file == file
  {
    match p
    case FileInputProvider => FileValue(file)
    case PluginProvider(name, _, _) => ProvidedValue(name, file)
  }

  /**
   * `populateInput(module, item, file)`: sets the item's value on the module
   * to what the provider stores for the file, and changes no other value.
   */
  method PopulateInput(p: Provider, instance: Module, item: ModuleItem, file: FileRef)
    modifies instance`values
    ensures instance.values == old(instance.values)[item.name := StoredValue(p, file)]
    ensures p.FileInputProvider? ==> instance.values[item.name] == FileValue(file)
  {
    instance.SetInput(item.name, StoredValue(p, file));
  }
}
