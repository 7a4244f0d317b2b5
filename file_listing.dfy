/**
 * The folder walk of the two script batch commands (`populateFileList`):
 * the files of a folder that a name filter accepts and, when recursive, those
 * of its subfolders first. The file system is given as a tree of entries, and
 * what the commons-io wildcard and regular-expression filters accept is given
 * as a matching function.
 */
module FileListing {
  import opened Wrappers
  import opened Runtime

  /** An entry of the file system: a plain file, or a folder with its entries in the order `listFiles` yields them. */
  datatype Node = File(file: FileRef) | Folder(file: FileRef, children: seq<Node>)

  /** The two filters a command can build from its pattern: `WildcardFileFilter` and `RegexFileFilter`. */
  datatype NameFilter = WildcardFilter(pattern: string) | RegexFilter(pattern: string)

  /** Whether a filter accepts a file name: the semantics of the commons-io filters, given from outside. */
  type Matcher = (NameFilter, string) -> bool

  /** The entries, in order, whose names the filter accepts: `folder.listFiles(filter)`. */
  function Accepted(nodes: seq<Node>, matcher: Matcher, filter: NameFilter): (r: seq<FileRef>)
    ensures |r| <= |nodes|
  {
    if nodes == [] then []
    else
      var last := nodes[|nodes| - 1];
      Accepted(nodes[..|nodes| - 1], matcher, filter) + (if matcher(filter, last.file.name) then [last.file] else [])
  }

  /** The accepted entries are exactly the entries whose names the filter accepts. */
  lemma {:induction false} AcceptedMembers(nodes: seq<Node>, matcher: Matcher, filter: NameFilter)
    ensures forall f :: f in Accepted(nodes, matcher, filter) <==> exists n :: n in nodes && n.file == f && matcher(filter, f.name)
  {
    if nodes != [] {
      var front := nodes[..|nodes| - 1];
      AcceptedMembers(front, matcher, filter);
      assert nodes == front + [nodes[|nodes| - 1]];
    }
  }

  /** Looking at one more entry adds it to the accepted ones exactly when the filter accepts its name. */
  lemma AcceptedStep(nodes: seq<Node>, matcher: Matcher, filter: NameFilter, k: nat)
    requires k < |nodes|
    ensures Accepted(nodes[..k + 1], matcher, filter)
         == Accepted(nodes[..k], matcher, filter) + (if matcher(filter, nodes[k].file.name) then [nodes[k].file] else [])
  {
    assert nodes[..k + 1][..k] == nodes[..k];
  }

  /** `populateFileList(folder, filter, recursive)`: with `recursive`, the results of the subfolders in their order, then the folder's own accepted entries. */
  function Collect(folder: Node, matcher: Matcher, filter: NameFilter, recursive: bool): seq<FileRef>
    requires folder.Folder?
    decreases folder, 1
  {
    (if recursive then SubfolderResults(folder, matcher, filter, |folder.children|) else [])
    + Accepted(folder.children, matcher, filter)
  }

  /** The recursive results of the subfolders among the first `count` entries of a folder, in their order. */
  function SubfolderResults(folder: Node, matcher: Matcher, filter: NameFilter, count: nat): seq<FileRef>
    requires folder.Folder? && count <= |folder.children|
    decreases folder, 0, count
  {
    if count == 0 then []
    else
      var entry := folder.children[count - 1];
      SubfolderResults(folder, matcher, filter, count - 1)
      + (if entry.Folder? then Collect(entry, matcher, filter, true) else [])
  }

  /** Every entry below a folder, at any depth. */
  function Below(folder: Node): set<FileRef>
    requires folder.Folder?
    decreases folder, 1
  {
    BelowFirst(folder, |folder.children|)
  }

  /** The first `count` entries of a folder and every entry below those that are folders. */
  function BelowFirst(folder: Node, count: nat): set<FileRef>
    requires folder.Folder? && count <= |folder.children|
    decreases folder, 0, count
  {
    if count == 0 then {}
    else
      var entry := folder.children[count - 1];
      BelowFirst(folder, count - 1) + {entry.file} + (if entry.Folder? then Below(entry) else {})
  }

  /** Without recursion the walk gives exactly the folder's own accepted entries, in listing order. */
  lemma FlatWalkIsFolderListing(folder: Node, matcher: Matcher, filter: NameFilter)
    requires folder.Folder?
    ensures Collect(folder, matcher, filter, false) == Accepted(folder.children, matcher, filter)
  {
    assert [] + Accepted(folder.children, matcher, filter) == Accepted(folder.children, matcher, filter);
  }

  /** With recursion the folder's own accepted entries come last, after everything found in its subfolders. */
  lemma RecursiveWalkEndsWithFolderListing(folder: Node, matcher: Matcher, filter: NameFilter)
    requires folder.Folder?
    ensures var all := Collect(folder, matcher, filter, true);
      var own := Accepted(folder.children, matcher, filter);
      |own| <= |all| && all[|all| - |own|..] == own
  {
  }

  /**
   * The recursive walk finds exactly the entries at any depth below the
   * folder whose names the filter accepts.
   */
  lemma {:induction false} RecursiveWalkFindsAccepted(folder: Node, matcher: Matcher, filter: NameFilter)
    requires folder.Folder?
    ensures forall f :: f in Collect(folder, matcher, filter, true) <==> f in Below(folder) && matcher(filter, f.name)
    decreases folder, 1
  {
    FirstEntriesFound(folder, matcher, filter, |folder.children|);
    assert folder.children[..|folder.children|] == folder.children;
  }

  /** The walk over the first `count` entries of a folder finds the accepted ones among them and below them. */
  lemma {:induction false} FirstEntriesFound(folder: Node, matcher: Matcher, filter: NameFilter, count: nat)
    requires folder.Folder? && count <= |folder.children|
    ensures forall f ::
      (f in SubfolderResults(folder, matcher, filter, count) || f in Accepted(folder.children[..count], matcher, filter))
      <==> f in BelowFirst(folder, count) && matcher(filter, f.name)
    decreases folder, 0, count
  {
    if count > 0 {
      var entry := folder.children[count - 1];
      FirstEntriesFound(folder, matcher, filter, count - 1);
      if entry.Folder? {
        RecursiveWalkFindsAccepted(entry, matcher, filter);
      }
      assert folder.children[..count][..count - 1] == folder.children[..count - 1];
    }
  }

  /**
   * `populateFileList(folder, filter, rec)`: with `rec`, the recursive
   * results of the subfolders, then the entries the filter accepts. The
   * folder must be a folder: `listFiles` gives `null` otherwise and the loop
   * throws.
   */
  method PopulateFileList(folder: Node, matcher: Matcher, filter: NameFilter, recursive: bool) returns (list: seq<FileRef>)
    requires folder.Folder?
    ensures list == Collect(folder, matcher, filter, recursive)
    decreases folder, 1
  {
    list := [];
    if recursive {
      list := WalkSubfolders(folder, matcher, filter);
    }
    list := AddAccepted(list, folder, matcher, filter);
  }

  /** The first loop of `populateFileList`: the recursive result of each subfolder in turn. */
  method WalkSubfolders(folder: Node, matcher: Matcher, filter: NameFilter) returns (list: seq<FileRef>)
    requires folder.Folder?
    ensures list == SubfolderResults(folder, matcher, filter, |folder.children|)
    decreases folder, 0
  {
    list := [];
    for k := 0 to |folder.children|
      invariant list == SubfolderResults(folder, matcher, filter, k)
    {
      var entry := folder.children[k];
      if entry.Folder? {
        var found := PopulateFileList(entry, matcher, filter, true);
        list := list + found;
      }
    }
  }

  /** The second loop of `populateFileList`: add each entry of the folder the filter accepts. */
  method AddAccepted(start: seq<FileRef>, folder: Node, matcher: Matcher, filter: NameFilter) returns (list: seq<FileRef>)
    requires folder.Folder?
    ensures list == start + Accepted(folder.children, matcher, filter)
  {
    list := start;
    for k := 0 to |folder.children|
      invariant list == start + Accepted(folder.children[..k], matcher, filter)
    {
      var entry := folder.children[k];
      AddedStep(start, folder.children, matcher, filter, k);
      if matcher(filter, entry.file.name) {
        list := list + [entry.file];
      }
    }
    assert folder.children[..|folder.children|] == folder.children;
  }

  /** One more entry looked at by the second loop of `populateFileList`. */
  lemma AddedStep(start: seq<FileRef>, nodes: seq<Node>, matcher: Matcher, filter: NameFilter, k: nat)
    requires k < |nodes|
    ensures start + Accepted(nodes[..k + 1], matcher, filter)
         == start + Accepted(nodes[..k], matcher, filter) + (if matcher(filter, nodes[k].file.name) then [nodes[k].file] else [])
  {
    AcceptedStep(nodes, matcher, filter, k);
    AppendAssoc(start, Accepted(nodes[..k], matcher, filter), if matcher(filter, nodes[k].file.name) then [nodes[k].file] else []);
  }
}
