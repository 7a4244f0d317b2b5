/**
 * `BatchProcessor`: the older batch command. It offers the scripts that have
 * a single `File` input under readable names, lists the files of a folder
 * whose names end with a given extension, and runs the chosen script once
 * per file, writing each run's outputs into a table with a counter `i` that
 * advances once per value written.
 */
module LegacyBatch {
  import opened Wrappers
  import opened Text
  import opened Runtime
  import opened Tables
  import opened Services
  import opened ModuleBatch

  /** A `ScriptInfo`: the module it describes and the names along its menu path, the leaf last. */
  datatype ScriptInfo = ScriptInfo(info: ModuleInfo, menuPath: seq<string>)

  /** The separator `MenuPath.getMenuString` puts between menu entries. */
  const MenuSeparator := " > "

  /** Every script has a menu path with at least a leaf, which `getNiceName` reads. */
  predicate HasMenuPaths(scripts: seq<ScriptInfo>) {
    forall s :: s in scripts ==> |s.menuPath| >= 1
  }

  /** `menu.getMenuString(false)`: the entries above the leaf, joined with ` > `. */
  function MenuString(path: seq<string>): string
    requires |path| >= 1
  {
    Join(path[..|path| - 1], MenuSeparator)
  }

  /** `getNiceName(script)`: the leaf's name, then the menu it sits in, in parentheses. */
  function NiceName(script: ScriptInfo): string
    requires |script.menuPath| >= 1
  {
    script.menuPath[|script.menuPath| - 1] + " (in " + MenuString(script.menuPath) + ")"
  }

  /**
   * Two scripts with the same leaf get the same nice name exactly when they
   * sit in the same menu: the name keeps the menu string intact.
   */
  lemma NiceNameSameLeaf(a: ScriptInfo, b: ScriptInfo)
    requires |a.menuPath| >= 1 && |b.menuPath| >= 1
    requires a.menuPath[|a.menuPath| - 1] == b.menuPath[|b.menuPath| - 1]
    ensures NiceName(a) == NiceName(b) <==> MenuString(a.menuPath) == MenuString(b.menuPath)
  {
    var prefix := a.menuPath[|a.menuPath| - 1] + " (in ";
    var ma := MenuString(a.menuPath);
    var mb := MenuString(b.menuPath);
    if NiceName(a) == NiceName(b) {
      assert NiceName(a) == prefix + ma + ")";
      assert NiceName(b) == prefix + mb + ")";
      assert ma == NiceName(a)[|prefix|..|NiceName(a)| - 1];
      assert mb == NiceName(b)[|prefix|..|NiceName(b)| - 1];
    }
  }

  /** A script straight under the top menu has an empty menu string: its nice name is `leaf (in )`. */
  lemma NiceNameAtTop(info: ModuleInfo, leaf: string)
    ensures NiceName(ScriptInfo(info, [leaf])) == leaf + " (in )"
  {
    assert [leaf][..0] == [];
  }

  /** A script is offered when its module has exactly one `File` input. */
  predicate Offered(script: ScriptInfo) {
    SingleFileInput(script.info).Some?
  }

  /** The scripts `initScriptChoice` keeps, in the order the script service lists them. */
  function OfferedScripts(scripts: seq<ScriptInfo>): (r: seq<ScriptInfo>)
    ensures forall s :: s in r <==> s in scripts && Offered(s)
    ensures |r| <= |scripts|
  {
    if scripts == [] then []
    else
      var front := scripts[..|scripts| - 1];
      var last := scripts[|scripts| - 1];
      assert scripts == front + [last];
      OfferedScripts(front) + (if Offered(last) then [last] else [])
  }

  /** The nice names of some scripts, in their order. */
  function NiceNames(scripts: seq<ScriptInfo>): seq<string>
    requires HasMenuPaths(scripts)
  {
    seq(|scripts|, k requires 0 <= k < |scripts| => NiceName(scripts[k]))
  }

  /** The modules of some scripts, in their order. */
  function Infos(scripts: seq<ScriptInfo>): seq<ModuleInfo> {
    seq(|scripts|, k requires 0 <= k < |scripts| => scripts[k].info)
  }

  /**
   * A map filled entry by entry from parallel sequences of keys and values,
   * as `HashMap.put` fills it: a later entry replaces an earlier one with the
   * same key.
   */
  function FillMap<K, V>(keys: seq<K>, values: seq<V>): map<K, V>
    requires |keys| == |values|
  {
    if keys == [] then map[]
    else FillMap(keys[..|keys| - 1], values[..|values| - 1])[keys[|keys| - 1] := values[|values| - 1]]
  }

  /** The filled map has exactly the keys put, each with the value of its last entry. */
  lemma {:induction false} FillMapLatest<K, V>(keys: seq<K>, values: seq<V>)
    requires |keys| == |values|
    ensures forall key :: key in FillMap(keys, values) <==> key in keys
    ensures forall k :: 0 <= k < |keys| && (forall j :: k < j < |keys| ==> keys[j] != keys[k])
                        ==> keys[k] in FillMap(keys, values) && FillMap(keys, values)[keys[k]] == values[k]
  {
    if keys != [] {
      var n := |keys| - 1;
      FillMapLatest(keys[..n], values[..n]);
      assert keys == keys[..n] + [keys[n]];
      forall k | 0 <= k < n && (forall j :: k < j < |keys| ==> keys[j] != keys[k])
        ensures FillMap(keys, values)[keys[k]] == values[k]
      {
        assert keys[..n][k] == keys[k] && values[..n][k] == values[k];
        forall j | k < j < n ensures keys[..n][j] != keys[..n][k] {
          assert keys[..n][j] == keys[j];
        }
      }
    }
  }

  /** A key at two positions of a sequence occurs in it at least twice. */
  lemma ListedTwice<K>(keys: seq<K>, a: nat, b: nat)
    requires a < b < |keys| && keys[a] == keys[b]
    ensures multiset(keys)[keys[a]] >= 2
  {
    var x := keys[a];
    assert keys[..b] == keys[..a] + [x] + keys[a + 1..b];
    assert multiset(keys[..b])[x] >= 1;
    assert keys[..b + 1] == keys[..b] + [x];
    assert keys == keys[..b + 1] + keys[b + 1..];
  }

  /**
   * Two entries with the same key: the key is listed twice, but the map
   * keeps only the later entry's value.
   */
  lemma SameKeyKeepsLater<K, V>(keys: seq<K>, values: seq<V>, a: nat, b: nat)
    requires |keys| == |values|
    requires a < b < |keys| && keys[a] == keys[b]
    requires forall j :: b < j < |keys| ==> keys[j] != keys[b]
    ensures multiset(keys)[keys[a]] >= 2
    ensures keys[a] in FillMap(keys, values) && FillMap(keys, values)[keys[a]] == values[b]
  {
    FillMapLatest(keys, values);
    ListedTwice(keys, a, b);
  }

  /** Sorted by `String.compareTo`. */
  predicate SortedStrings(s: seq<string>) {
    forall i, j :: 0 <= i < j < |s| ==> LessEq(s[i], s[j])
  }

  /** The first name of a sorted sequence comes before every name in it. */
  lemma SortedHeadLeast(s: seq<string>, x: string)
    requires SortedStrings(s) && x in s
    ensures LessEq(s[0], x)
  {
    var i :| 0 <= i < |s| && s[i] == x;
    if i == 0 {
      LessEqTotal(x, x);
    }
  }

  /** Dropping the first name of a sorted sequence leaves it sorted. */
  lemma SortedTail(s: seq<string>)
    requires SortedStrings(s) && s != []
    ensures SortedStrings(s[1..])
  {
    forall i, j | 0 <= i < j < |s[1..]| ensures LessEq(s[1..][i], s[1..][j]) {
      assert s[1..][i] == s[i + 1] && s[1..][j] == s[j + 1];
    }
  }

  /** Two sorted orderings of the same non-empty collection of names start with the same name. */
  lemma SortedSameHead(a: seq<string>, b: seq<string>)
    requires SortedStrings(a) && SortedStrings(b) && multiset(a) == multiset(b) && a != []
    ensures b != [] && a[0] == b[0]
  {
    assert a[0] in multiset(b);
    assert b[0] in multiset(a);
    SortedHeadLeast(b, a[0]);
    SortedHeadLeast(a, b[0]);
    LessEqAntisymmetric(a[0], b[0]);
  }

  /** Two sorted orderings of the same names are the same sequence. */
  lemma {:induction false} SortedPermutationUnique(a: seq<string>, b: seq<string>)
    requires SortedStrings(a) && SortedStrings(b) && multiset(a) == multiset(b)
    ensures a == b
    decreases |a|
  {
    if a != [] {
      SortedSameHead(a, b);
      assert multiset(a[1..]) == multiset(a) - multiset{a[0]} by {
        assert a == [a[0]] + a[1..];
      }
      assert multiset(b[1..]) == multiset(b) - multiset{b[0]} by {
        assert b == [b[0]] + b[1..];
      }
      SortedTail(a);
      SortedTail(b);
      SortedPermutationUnique(a[1..], b[1..]);
      assert a == [a[0]] + a[1..] && b == [b[0]] + b[1..];
    }
  }

  /** Inserting one name into a sorted sequence in front of the first greater name keeps it sorted. */
  method InsertSorted(s: seq<string>, x: string) returns (r: seq<string>)
    requires SortedStrings(s)
    ensures SortedStrings(r) && multiset(r) == multiset(s) + multiset{x}
  {
    var p := 0;
    while p < |s| && LessEq(s[p], x)
      invariant 0 <= p <= |s|
      invariant forall q :: 0 <= q < p ==> LessEq(s[q], x)
    {
      p := p + 1;
    }
    if p < |s| {
      LessEqTotal(s[p], x);
      forall q | p < q < |s| ensures LessEq(x, s[q]) {
        LessEqTransitive(x, s[p], s[q]);
      }
      assert LessEq(x, s[p]);
    }
    r := s[..p] + [x] + s[p..];
    InsertKeepsSorted(s, p, x);
    assert s == s[..p] + s[p..];
  }

  /** A name placed after every name before it and before every name after it keeps a sorted sequence sorted. */
  lemma InsertKeepsSorted(s: seq<string>, p: nat, x: string)
    requires SortedStrings(s) && p <= |s|
    requires forall q :: 0 <= q < p ==> LessEq(s[q], x)
    requires forall q :: p <= q < |s| ==> LessEq(x, s[q])
    ensures SortedStrings(s[..p] + [x] + s[p..])
  {
    var r := s[..p] + [x] + s[p..];
    forall i, j | 0 <= i < j < |r| ensures LessEq(r[i], r[j]) {
      if i < p {
        assert r[i] == s[i];
      } else if i > p {
        assert r[i] == s[i - 1];
      }
      if j < p {
        assert r[j] == s[j];
      } else if j > p {
        assert r[j] == s[j - 1];
      }
    }
  }

  /** `Collections.sort(choices)`: the same names, sorted. */
  method SortStrings(s: seq<string>) returns (r: seq<string>)
    ensures SortedStrings(r) && multiset(r) == multiset(s)
  {
    r := [];
    for k := 0 to |s|
      invariant SortedStrings(r) && multiset(r) == multiset(s[..k])
    {
      assert s[..k + 1] == s[..k] + [s[k]];
      r := InsertSorted(r, s[k]);
    }
    assert s[..|s|] == s;
  }

  /** The `FilenameFilter` of `run`: the name, lower-cased, ends with the extension, lower-cased. */
  predicate Accepts(name: string, extension: string) {
    EndsWith(ToLower(name), ToLower(extension))
  }

  /** `inputFolder.listFiles(filter)`: the entries of the folder the filter accepts, in listing order. */
  function AcceptedFiles(listing: seq<FileRef>, extension: string): (r: seq<FileRef>)
    ensures forall f :: f in r <==> f in listing && Accepts(f.name, extension)
    ensures IsSubsequence(r, listing)
    ensures |r| <= |listing|
  {
    if listing == [] then []
    else
      var rest := AcceptedFiles(listing[1..], extension);
      if Accepts(listing[0].name, extension) then
        [listing[0]] + rest
      else
        assert rest == [] || rest[0] != listing[0] by {
          if rest != [] {
            assert rest[0] in rest;
          }
        }
        rest
  }

  /** The filter ignores case on both sides: lower-casing the name or the extension first changes nothing. */
  lemma AcceptsIgnoresCase(name: string, extension: string)
    ensures Accepts(ToLower(name), extension) <==> Accepts(name, extension)
    ensures Accepts(name, ToLower(extension)) <==> Accepts(name, extension)
  {
    ToLowerIdempotent(name);
    ToLowerIdempotent(extension);
  }

  /** A name is accepted exactly when, lower-cased, it is some stem followed by the lower-cased extension. */
  lemma AcceptsIffStem(name: string, extension: string)
    ensures Accepts(name, extension) <==> exists stem: string :: ToLower(name) == stem + ToLower(extension)
  {
    EndsWithIffConcat(ToLower(name), ToLower(extension));
  }

  /** An empty extension lets every entry of the folder through. */
  lemma {:induction false} EmptyExtensionAcceptsAll(listing: seq<FileRef>)
    ensures AcceptedFiles(listing, "") == listing
  {
    if listing != [] {
      EmptyExtensionAcceptsAll(listing[1..]);
      assert ToLower(listing[0].name)[|ToLower(listing[0].name)|..] == [];
    }
  }

  /**
   * What writing one run's outputs leaves: the table, the row index the next
   * output would go to, and whether a `set` threw.
   */
  datatype Written = Written(table: Table, row: nat, threw: bool)

  /**
   * The loop of `run` over the entries of one run's outputs map: each output
   * is set in row `row`, which moves on by one with each output when
   * `advance` holds (the `i++` of the source, which happens before `set`
   * runs) and stays put otherwise. The first `set` that throws ends it.
   */
  function SetOutputs(t: Table, outputs: seq<Output>, row: nat, advance: bool): (r: Written)
    decreases |outputs|
  {
    if outputs == [] then Written(t, row, false)
    else
      var next := if advance then row + 1 else row;
      match SetCell(t, outputs[0].key, row, outputs[0].value)
      case None => Written(t, next, true)
      case Some(written) => SetOutputs(written, outputs[1..], next, advance)
  }

  /** Writing outputs keeps the columns, the number of rows and every row's label. */
  lemma {:induction false} SetOutputsShape(t: Table, outputs: seq<Output>, row: nat, advance: bool)
    ensures var r := SetOutputs(t, outputs, row, advance);
      r.table.columns == t.columns && |r.table.rows| == |t.rows|
      && forall j :: 0 <= j < |t.rows| ==> r.table.rows[j].header == t.rows[j].header
    decreases |outputs|
  {
    if outputs != [] {
      var next := if advance then row + 1 else row;
      var written := SetCell(t, outputs[0].key, row, outputs[0].value);
      if written.Some? {
        SetOutputsShape(written.value, outputs[1..], next, advance);
      }
    }
  }

  /**
   * With the counter, no `set` throws exactly when every output names a
   * column and the rows reach far enough for output `k` to go into row
   * `row + k`; the counter then ends one past the last row written.
   */
  lemma {:induction false} CountedSetThrowsIff(t: Table, outputs: seq<Output>, row: nat)
    ensures var r := SetOutputs(t, outputs, row, true);
      && (!r.threw <==> forall k :: 0 <= k < |outputs| ==> outputs[k].key in t.columns && row + k < |t.rows|)
      && (!r.threw ==> r.row == row + |outputs|)
    decreases |outputs|
  {
    if outputs != [] {
      var written := SetCell(t, outputs[0].key, row, outputs[0].value);
      if written.Some? {
        CountedSetThrowsIff(written.value, outputs[1..], row + 1);
        forall k | 1 <= k < |outputs| ensures outputs[k] == outputs[1..][k - 1] {
        }
      }
    }
  }

  /** Writing every output into one row whose columns they all name sets their cells and nothing else. */
  lemma {:induction false} SetInRowCells(t: Table, outputs: seq<Output>, row: nat)
    requires row < |t.rows|
    requires forall k :: 0 <= k < |outputs| ==> outputs[k].key in t.columns
    ensures SetOutputs(t, outputs, row, false)
      == Written(Table(t.columns, t.rows[row := Row(t.rows[row].header, WithOutputs(t.rows[row].cells, outputs))]), row, false)
    decreases |outputs|
  {
    if outputs != [] {
      var written := SetCell(t, outputs[0].key, row, outputs[0].value).value;
      SetInRowCells(written, outputs[1..], row);
      assert written.rows[row := Row(written.rows[row].header, WithOutputs(written.rows[row].cells, outputs[1..]))]
          == t.rows[row := Row(t.rows[row].header, WithOutputs(t.rows[row].cells, outputs))];
    }
  }

  /** How `run` ends: after the last listed file, by the `return` after an interrupted run, or by a `set` that throws. */
  datatype LegacyStop = AllListed | InterruptedReturn | SetThrew

  /** What the loop of `run` leaves: the table, how many files it took on, what it logged and how it ended. */
  datatype Pass = Pass(table: Table, processed: nat, log: seq<LogEntry>, stop: LegacyStop)

  /**
   * The loop of `run` from file `k` on, with the counter at `counter`:
   * append the file's row, then on success write the outputs, into row
   * `counter` onwards as written or, when `fixed`, all into the row just
   * appended; an interrupted run logs and returns, a failed one logs and the
   * loop goes on.
   */
  function PassFrom(t: Table, counter: nat, log: seq<LogEntry>, files: seq<FileRef>, outcomes: seq<Outcome>,
                    k: nat, fixed: bool): (r: Pass)
    requires |outcomes| == |files| && k <= |files|
    ensures k <= r.processed <= |files|
    decreases |files| - k
  {
    if k == |files| then Pass(t, k, log, AllListed)
    else
      var withRow := AppendRow(t, files[k].name);
      match outcomes[k]
      case Interrupted => Pass(withRow, k + 1, log + FailureLog(outcomes[k]), InterruptedReturn)
      case ExecutionFailed => PassFrom(withRow, counter, log + FailureLog(outcomes[k]), files, outcomes, k + 1, fixed)
      case Succeeded(outputs) =>
        var w := SetOutputs(withRow, outputs, if fixed then |withRow.rows| - 1 else counter, !fixed);
        if w.threw then Pass(w.table, k + 1, log, SetThrew)
        else PassFrom(w.table, w.row, log, files, outcomes, k + 1, fixed)
  }

  /** `run` as written: the counter `i` starts at 0 and moves on once per output value written. */
  function Legacy(columns: seq<string>, files: seq<FileRef>, outcomes: seq<Outcome>): Pass
    requires |outcomes| == |files|
  {
    PassFrom(Table(columns, []), 0, [], files, outcomes, 0, false)
  }

  /** `run` as evidently intended: each run's outputs go into the row of its own file. */
  function Corrected(columns: seq<string>, files: seq<FileRef>, outcomes: seq<Outcome>): Pass
    requires |outcomes| == |files|
  {
    PassFrom(Table(columns, []), 0, [], files, outcomes, 0, true)
  }

  /**
   * One file of the loop, either way: it appends the file's row, keeping
   * the columns and the labels of the rows before, and then either the loop
   * goes on with the next file from the table it leaves, or it ends there.
   */
  lemma PassStep(t: Table, counter: nat, log: seq<LogEntry>, files: seq<FileRef>, outcomes: seq<Outcome>, k: nat, fixed: bool)
    returns (next: Table, c: nat, l: seq<LogEntry>, goesOn: bool)
    requires |outcomes| == |files| && k < |files|
    ensures next.columns == t.columns && |next.rows| == |t.rows| + 1
    ensures forall j :: 0 <= j < |t.rows| ==> next.rows[j].header == t.rows[j].header
    ensures next.rows[|t.rows|].header == files[k].name
    ensures var r := PassFrom(t, counter, log, files, outcomes, k, fixed);
      && (goesOn ==> r == PassFrom(next, c, l, files, outcomes, k + 1, fixed))
      && (!goesOn ==> r.table == next && r.processed == k + 1)
  {
    var withRow := AppendRow(t, files[k].name);
    next, c, l, goesOn := withRow, counter, log + FailureLog(outcomes[k]), !outcomes[k].Interrupted?;
    if outcomes[k].Succeeded? {
      var row := if fixed then |withRow.rows| - 1 else counter;
      SetOutputsShape(withRow, outcomes[k].outputs, row, !fixed);
      var w := SetOutputs(withRow, outcomes[k].outputs, row, !fixed);
      next, c, l, goesOn := w.table, w.row, log, !w.threw;
    }
  }

  /** Either way the loop keeps the columns and appends exactly one row per file it takes on. */
  lemma {:induction false} PassRowCount(t: Table, counter: nat, log: seq<LogEntry>, files: seq<FileRef>,
                                        outcomes: seq<Outcome>, k: nat, fixed: bool)
    requires |outcomes| == |files| && k <= |files| && |t.rows| == k
    ensures var r := PassFrom(t, counter, log, files, outcomes, k, fixed);
      r.table.columns == t.columns && |r.table.rows| == r.processed
    decreases |files| - k
  {
    if k < |files| {
      var next, c, l, goesOn := PassStep(t, counter, log, files, outcomes, k, fixed);
      if goesOn {
        PassRowCount(next, c, l, files, outcomes, k + 1, fixed);
      }
    }
  }

  /** Either way the rows before the loop keep their labels and the row of each file it takes on is labelled by the file's name. */
  lemma {:induction false} PassRowHeaders(t: Table, counter: nat, log: seq<LogEntry>, files: seq<FileRef>,
                                          outcomes: seq<Outcome>, k: nat, fixed: bool)
    requires |outcomes| == |files| && k <= |files| && |t.rows| == k
    ensures var r := PassFrom(t, counter, log, files, outcomes, k, fixed);
      && |r.table.rows| == r.processed
      && (forall j :: 0 <= j < k ==> r.table.rows[j].header == t.rows[j].header)
      && (forall j :: k <= j < r.processed ==> r.table.rows[j].header == files[j].name)
    decreases |files| - k
  {
    PassRowCount(t, counter, log, files, outcomes, k, fixed);
    if k < |files| {
      var next, c, l, goesOn := PassStep(t, counter, log, files, outcomes, k, fixed);
      if goesOn {
        PassRowHeaders(next, c, l, files, outcomes, k + 1, fixed);
      }
    }
  }

  /**
   * The loop takes on the files in order until one ends it: a loop that got
   * through the listing met no interrupted run, and one that stopped early
   * stopped at the last file it took on, whose run was interrupted (for the
   * `return`) or succeeded (for a `set` that threw).
   */
  lemma {:induction false} PassStopsAt(t: Table, counter: nat, log: seq<LogEntry>, files: seq<FileRef>,
                                       outcomes: seq<Outcome>, k: nat, fixed: bool)
    requires |outcomes| == |files| && k <= |files|
    ensures var r := PassFrom(t, counter, log, files, outcomes, k, fixed);
      && (forall j :: k <= j < r.processed - 1 ==> !outcomes[j].Interrupted?)
      && (r.stop == AllListed ==> r.processed == |files| && forall j :: k <= j < |files| ==> !outcomes[j].Interrupted?)
      && (r.stop == InterruptedReturn ==> k < r.processed && outcomes[r.processed - 1].Interrupted?)
      && (r.stop == SetThrew ==> k < r.processed && outcomes[r.processed - 1].Succeeded?)
    decreases |files| - k
  {
    if k < |files| {
      var withRow := AppendRow(t, files[k].name);
      match outcomes[k]
      case Interrupted =>
      case ExecutionFailed =>
        PassStopsAt(withRow, counter, log + FailureLog(outcomes[k]), files, outcomes, k + 1, fixed);
      case Succeeded(outputs) =>
        var w := SetOutputs(withRow, outputs, if fixed then |withRow.rows| - 1 else counter, !fixed);
        if !w.threw {
          PassStopsAt(w.table, w.row, log, files, outcomes, k + 1, fixed);
        }
    }
  }

  /**
   * `run` as written, over a whole listing: one row per file taken on,
   * labelled by its name, under one column per output; it stops early only
   * at an interrupted run or a `set` that throws, and then at that file.
   */
  lemma LegacyRowsAndStop(columns: seq<string>, files: seq<FileRef>, outcomes: seq<Outcome>)
    requires |outcomes| == |files|
    ensures var r := Legacy(columns, files, outcomes);
      && r.table.columns == columns && |r.table.rows| == r.processed <= |files|
      && (forall j :: 0 <= j < r.processed ==> r.table.rows[j].header == files[j].name)
      && (forall j :: 0 <= j < r.processed - 1 ==> !outcomes[j].Interrupted?)
      && (r.stop == AllListed ==> r.processed == |files|)
      && (r.stop == InterruptedReturn ==> outcomes[r.processed - 1].Interrupted?)
      && (r.stop == SetThrew ==> outcomes[r.processed - 1].Succeeded?)
  {
    PassRowCount(Table(columns, []), 0, [], files, outcomes, 0, false);
    PassRowHeaders(Table(columns, []), 0, [], files, outcomes, 0, false);
    PassStopsAt(Table(columns, []), 0, [], files, outcomes, 0, false);
  }

  /** The legacy command never checks for cancellation: no file's cancel flag is set. */
  function NoCancels(n: nat): (r: seq<bool>)
    ensures |r| == n && forall j :: 0 <= j < n ==> !r[j]
  {
    seq(n, _ => false)
  }

  /**
   * One file of the corrected loop that does not return: its row, holding
   * its outputs when its run succeeded, is appended and its failure logged.
   */
  lemma CorrectedStep(t: Table, counter: nat, log: seq<LogEntry>, files: seq<FileRef>, outcomes: seq<Outcome>, k: nat)
    requires |outcomes| == |files| && k < |files|
    requires !outcomes[k].Interrupted? && FitsOutputs(outcomes[k], t.columns)
    ensures PassFrom(t, counter, log, files, outcomes, k, true)
         == PassFrom(Table(t.columns, t.rows + [RowOf(files[k], outcomes[k])]), counter, log + FailureLog(outcomes[k]),
                     files, outcomes, k + 1, true)
  {
    if outcomes[k].Succeeded? {
      var outputs := outcomes[k].outputs;
      var withRow := AppendRow(t, files[k].name);
      SetInRowCells(withRow, outputs, |t.rows|);
      var filled := Table(t.columns, t.rows + [RowOf(files[k], outcomes[k])]);
      assert withRow.rows[|t.rows| := Row(files[k].name, WithOutputs(map[], outputs))] == filled.rows;
      assert log + FailureLog(outcomes[k]) == log;
      CorrectedIgnoresCounter(filled, |t.rows|, counter, log, files, outcomes, k + 1);
    }
  }

  /**
   * When every run returns only declared outputs, the corrected loop builds
   * the rows of the module batch loop without cancellation, never has a
   * `set` throw, and returns early exactly when that loop aborts.
   */
  lemma {:induction false} CorrectedFollowsBatch(t: Table, counter: nat, log: seq<LogEntry>, files: seq<FileRef>,
                                                 outcomes: seq<Outcome>, k: nat)
    requires |outcomes| == |files| && k <= |files|
    requires forall j :: k <= j < |files| ==> FitsOutputs(outcomes[j], t.columns)
    ensures var r := PassFrom(t, counter, log, files, outcomes, k, true);
      var b := BatchFrom(files, outcomes, NoCancels(|files|), k);
      && r.table == Table(t.columns, t.rows + b.rows)
      && r.stop != SetThrew
      && (r.stop == InterruptedReturn <==> b.stop == Aborted)
    decreases |files| - k
  {
    if k == |files| {
      assert t.rows + [] == t.rows;
    } else if !outcomes[k].Interrupted? {
      var row := RowOf(files[k], outcomes[k]);
      var filled := Table(t.columns, t.rows + [row]);
      CorrectedStep(t, counter, log, files, outcomes, k);
      CorrectedFollowsBatch(filled, counter, log + FailureLog(outcomes[k]), files, outcomes, k + 1);
      var rest := BatchFrom(files, outcomes, NoCancels(|files|), k + 1);
      assert filled.rows + rest.rows == t.rows + ([row] + rest.rows);
    }
  }

  /**
   * Corrected, with every run returning only declared outputs: the rows are
   * those of the module batch loop, so row `j` is labelled by file `j` and
   * holds that file's outputs exactly when its run succeeded.
   */
  lemma CorrectedRowsHoldOwnOutputs(columns: seq<string>, files: seq<FileRef>, outcomes: seq<Outcome>)
    requires |outcomes| == |files|
    requires forall j :: 0 <= j < |files| ==> FitsOutputs(outcomes[j], columns)
    ensures var r := Corrected(columns, files, outcomes);
      && r.table.rows == Batch(files, outcomes, NoCancels(|files|)).rows
      && r.stop != SetThrew
      && forall j :: 0 <= j < |r.table.rows| ==> r.table.rows[j] == RowOf(files[j], outcomes[j])
  {
    var r := Corrected(columns, files, outcomes);
    var b := Batch(files, outcomes, NoCancels(|files|));
    CorrectedFollowsBatch(Table(columns, []), 0, [], files, outcomes, 0);
    assert r.table.rows == b.rows;
    BatchRowsFollowFiles(files, outcomes, NoCancels(|files|), 0);
  }

  /** The corrected loop never reads the counter. */
  lemma {:induction false} CorrectedIgnoresCounter(t: Table, c: nat, d: nat, log: seq<LogEntry>, files: seq<FileRef>,
                                                   outcomes: seq<Outcome>, k: nat)
    requires |outcomes| == |files| && k <= |files|
    ensures PassFrom(t, c, log, files, outcomes, k, true) == PassFrom(t, d, log, files, outcomes, k, true)
    decreases |files| - k
  {
    if k < |files| {
      var withRow := AppendRow(t, files[k].name);
      match outcomes[k]
      case Interrupted =>
      case ExecutionFailed =>
        CorrectedIgnoresCounter(withRow, c, d, log + FailureLog(outcomes[k]), files, outcomes, k + 1);
      case Succeeded(outputs) =>
    }
  }

  /**
   * Why the counter goes unnoticed: as long as no run fails and each run
   * that returns yields exactly one output, the counter equals the index of
   * the row just appended, and the loop as written does what the corrected
   * one does.
   */
  lemma {:induction false} OneOutputEachAgrees(t: Table, c: nat, log: seq<LogEntry>, files: seq<FileRef>,
                                               outcomes: seq<Outcome>, k: nat)
    requires |outcomes| == |files| && k <= |files| && |t.rows| == k
    requires forall j :: k <= j < |files| ==>
      outcomes[j].Interrupted? || (outcomes[j].Succeeded? && |outcomes[j].outputs| == 1)
    ensures PassFrom(t, k, log, files, outcomes, k, false) == PassFrom(t, c, log, files, outcomes, k, true)
    decreases |files| - k
  {
    if k < |files| {
      var withRow := AppendRow(t, files[k].name);
      match outcomes[k]
      case Interrupted =>
      case Succeeded(outputs) =>
        var o := outputs[0];
        assert outputs[1..] == [];
        var written := SetCell(withRow, o.key, k, o.value);
        if written.Some? {
          assert SetOutputs(withRow, outputs, k, true) == Written(written.value, k + 1, false);
          assert SetOutputs(withRow, outputs, k, false) == Written(written.value, k, false);
          OneOutputEachAgrees(written.value, k, log, files, outcomes, k + 1);
          CorrectedIgnoresCounter(written.value, k, c, log, files, outcomes, k + 1);
        }
    }
  }

  /**
   * First input of the finding: one output `y`; the run of `a.tif` fails and
   * that of `b.tif` succeeds. As written, the value of `b.tif` lands in the
   * row of `a.tif` and the row of `b.tif` stays empty; corrected, it lands
   * in its own row.
   */
  lemma MisplacedAfterFailure(v: Value)
    ensures var files := [FileRef("", "a.tif"), FileRef("", "b.tif")];
      var outcomes := [ExecutionFailed, Succeeded([Output("y", v)])];
      && Legacy(["y"], files, outcomes).stop == AllListed
      && Legacy(["y"], files, outcomes).table.rows == [Row("a.tif", map["y" := v]), Row("b.tif", map[])]
      && Corrected(["y"], files, outcomes).stop == AllListed
      && Corrected(["y"], files, outcomes).table.rows == [Row("a.tif", map[]), Row("b.tif", map["y" := v])]
  {
    var files := [FileRef("", "a.tif"), FileRef("", "b.tif")];
    var outcomes := [ExecutionFailed, Succeeded([Output("y", v)])];
    var failed := FailureLog(ExecutionFailed);
    var t0 := Table(["y"], []);
    var t1 := Table(["y"], [Row("a.tif", map[])]);
    var t2 := Table(["y"], [Row("a.tif", map[]), Row("b.tif", map[])]);
    assert AppendRow(t0, "a.tif") == t1 && AppendRow(t1, "b.tif") == t2;
    var o := Output("y", v);
    var asWritten := Table(["y"], [Row("a.tif", map["y" := v]), Row("b.tif", map[])]);
    var corrected := Table(["y"], [Row("a.tif", map[]), Row("b.tif", map["y" := v])]);
    assert t2.rows[0 := Row("a.tif", map["y" := v])] == asWritten.rows;
    assert SetCell(t2, "y", 0, v) == Some(asWritten);
    assert SetOutputs(t2, [o], 0, true) == Written(asWritten, 1, false);
    assert t2.rows[1 := Row("b.tif", map["y" := v])] == corrected.rows;
    assert SetCell(t2, "y", 1, v) == Some(corrected);
    assert SetOutputs(t2, [o], 1, false) == Written(corrected, 1, false);
    assert PassFrom(t1, 0, failed, files, outcomes, 1, false) == Pass(asWritten, 2, failed, AllListed);
    assert PassFrom(t1, 0, failed, files, outcomes, 1, true) == Pass(corrected, 2, failed, AllListed);
  }

  /**
   * Second input of the finding: one file whose run returns two outputs `x`
   * and `y`. As written, the second `set` targets row 1 of a one-row table
   * and throws, ending `run`; corrected, both values land in the file's row.
   */
  lemma SecondOutputThrows(v: Value, w: Value)
    ensures var files := [FileRef("", "a.tif")];
      var outcomes := [Succeeded([Output("x", v), Output("y", w)])];
      && Legacy(["x", "y"], files, outcomes).stop == SetThrew
      && Legacy(["x", "y"], files, outcomes).table.rows == [Row("a.tif", map["x" := v])]
      && Corrected(["x", "y"], files, outcomes).stop == AllListed
      && Corrected(["x", "y"], files, outcomes).table.rows == [Row("a.tif", map["x" := v, "y" := w])]
  {
    var files := [FileRef("", "a.tif")];
    var x := Output("x", v);
    var y := Output("y", w);
    var outcomes := [Succeeded([x, y])];
    var t1 := Table(["x", "y"], [Row("a.tif", map[])]);
    assert AppendRow(Table(["x", "y"], []), "a.tif") == t1;
    var first := Table(["x", "y"], [Row("a.tif", map["x" := v])]);
    var both := Table(["x", "y"], [Row("a.tif", map["x" := v, "y" := w])]);
    assert t1.rows[0 := Row("a.tif", map["x" := v])] == first.rows;
    assert SetCell(t1, "x", 0, v) == Some(first);
    assert SetCell(first, "y", 1, w) == None;
    assert SetOutputs(t1, [x, y], 0, true) == Written(first, 2, true) by {
      assert [x, y][1..] == [y];
    }
    assert first.rows[0 := Row("a.tif", map["x" := v]["y" := w])] == both.rows;
    assert SetCell(first, "y", 0, w) == Some(both);
    assert SetOutputs(t1, [x, y], 0, false) == Written(both, 0, false) by {
      assert [x, y][1..] == [y] && [y][1..] == [];
      assert SetOutputs(first, [y], 0, false) == SetOutputs(both, [], 0, false);
    }
    assert PassFrom(both, 0, [], files, outcomes, 1, true) == Pass(both, 1, [], AllListed);
  }

  /** Adding one more script to a list adds its nice name at the end of their names. */
  lemma NiceNamesStep(kept: seq<ScriptInfo>, script: ScriptInfo)
    requires HasMenuPaths(kept) && |script.menuPath| >= 1
    ensures HasMenuPaths(kept + [script])
    ensures NiceNames(kept + [script]) == NiceNames(kept) + [NiceName(script)]
    ensures Infos(kept + [script]) == Infos(kept) + [script.info]
  {
    assert forall s :: s in kept + [script] ==> s in kept || s == script;
  }

  /** Putting one more entry into a filled map. */
  lemma FillMapStep<K, V>(keys: seq<K>, values: seq<V>, key: K, value: V)
    requires |keys| == |values|
    ensures FillMap(keys + [key], values + [value]) == FillMap(keys, values)[key := value]
  {
    assert (keys + [key])[..|keys|] == keys;
    assert (values + [value])[..|values|] == values;
  }

  /** Scanning one more script offers it exactly when it has a single `File` input. */
  lemma OfferedStep(scripts: seq<ScriptInfo>, k: nat)
    requires k < |scripts|
    ensures OfferedScripts(scripts[..k + 1])
         == OfferedScripts(scripts[..k]) + (if Offered(scripts[k]) then [scripts[k]] else [])
  {
    assert scripts[..k + 1][..k] == scripts[..k];
  }

  /** The number of output values the successful runs among the first `n` files return; a failed or interrupted run returns none. */
  function OutputsReturned(outcomes: seq<Outcome>, n: nat): nat
    requires n <= |outcomes|
  {
    if n == 0 then 0
    else OutputsReturned(outcomes, n - 1) + (if outcomes[n - 1].Succeeded? then |outcomes[n - 1].outputs| else 0)
  }

  /** The module's values once the first `processed` files have been set into input `name`: the last of them. */
  function LastFileValue(values: map<string, Value>, name: string, files: seq<FileRef>, processed: nat): map<string, Value>
    requires processed <= |files|
  {
    if processed == 0 then values else values[name := FileValue(files[processed - 1])]
  }

  /** Setting one more file into the input replaces the one before it. */
  lemma LastFileStep(values: map<string, Value>, name: string, files: seq<FileRef>, processed: nat)
    requires processed < |files|
    ensures LastFileValue(values, name, files, processed)[name := FileValue(files[processed])]
         == LastFileValue(values, name, files, processed + 1)
  {
    if processed > 0 {
      assert values[name := FileValue(files[processed - 1])][name := FileValue(files[processed])]
          == values[name := FileValue(files[processed])];
    }
  }

  /**
   * The command's parameters and state: the file extension, the chosen
   * script, the choices offered for it, the modules created for the offered
   * scripts under their nice names, the output table (`null` until `run`)
   * and what it has logged.
   */
  class BatchProcessor {
    var extension: string
    var scriptChoice: string
    var choices: seq<string>
    var scriptMap: map<string, Module>
    var outputTable: Option<Table>
    var log: seq<LogEntry>

    /** The command with its parameters as the user gives them, its map of scripts still empty. */
    constructor (extension: string, scriptChoice: string)
      ensures this.extension == extension && this.scriptChoice == scriptChoice
      ensures choices == [] && scriptMap == map[] && outputTable == None && log == []
    {
      this.extension := extension;
      this.scriptChoice := scriptChoice;
      choices := [];
      scriptMap := map[];
      outputTable := None;
      log := [];
    }

    /**
     * `initScriptChoice()`: create a module for every script the script
     * service lists; keep those with a single `File` input under their nice
     * names, a later script replacing an earlier one of the same name; offer
     * the names kept, sorted.
     */
    method InitScriptChoice(scripts: seq<ScriptInfo>)
      requires HasMenuPaths(scripts)
      modifies this`choices, this`scriptMap
      ensures var offered := OfferedScripts(scripts);
        SortedStrings(choices) && multiset(choices) == multiset(NiceNames(offered))
      ensures var offered := OfferedScripts(scripts);
        var added := FillMap(NiceNames(offered), Infos(offered));
        && (forall name :: name in scriptMap <==> name in old(scriptMap) || name in added)
        && (forall name :: name in added ==>
              fresh(scriptMap[name]) && scriptMap[name].info == added[name] && scriptMap[name].resolvedInputs == {})
        && (forall name :: name in old(scriptMap) && name !in added ==> scriptMap[name] == old(scriptMap)[name])
    {
      var names, modules := CreateOffered(scripts);
      scriptMap := scriptMap + modules;
      choices := SortStrings(names);
    }

    /**
     * The loop of `initScriptChoice`: a new module for every script, and the
     * nice names of those with a single `File` input, each put into the map
     * with its module.
     */
    method CreateOffered(scripts: seq<ScriptInfo>) returns (names: seq<string>, modules: map<string, Module>)
      requires HasMenuPaths(scripts)
      ensures var offered := OfferedScripts(scripts);
        var added := FillMap(NiceNames(offered), Infos(offered));
        && names == NiceNames(offered)
        && modules.Keys == added.Keys
        && forall name :: name in modules ==>
             fresh(modules[name]) && modules[name].info == added[name] && modules[name].resolvedInputs == {}
    {
      names := [];
      modules := map[];
      ghost var kept: seq<ScriptInfo> := [];
      ghost var added: map<string, ModuleInfo> := map[];
      for k := 0 to |scripts|
        invariant kept == OfferedScripts(scripts[..k]) && HasMenuPaths(kept)
        invariant names == NiceNames(kept) && added == FillMap(names, Infos(kept))
        invariant modules.Keys == added.Keys
        invariant forall name :: name in modules ==>
          fresh(modules[name]) && modules[name].info == added[name] && modules[name].resolvedInputs == {}
      {
        var script := scripts[k];
        OfferedStep(scripts, k);
        var scriptModule := new Module(script.info);
        if SingleFileInput(scriptModule.info).Some? {
          var scriptName := NiceName(script);
          NiceNamesStep(kept, script);
          FillMapStep(names, Infos(kept), scriptName, script.info);
          names := names + [scriptName];
          modules := modules[scriptName := scriptModule];
          kept := kept + [script];
          added := added[scriptName := script.info];
        }
      }
      assert scripts[..|scripts|] == scripts;
    }

    /**
     * `run()`: resolve the single `File` input of the chosen script's module,
     * start the table with one column per output, and run the module on each
     * file of the folder the extension filter accepts, as `Legacy` states.
     */
    method Run(listing: seq<FileRef>, outcomes: seq<Outcome>) returns (stop: LegacyStop)
      requires scriptChoice in scriptMap && SingleFileInput(scriptMap[scriptChoice].info).Some?
      requires |outcomes| == |AcceptedFiles(listing, extension)|
      modifies this`outputTable, this`log, scriptMap[scriptChoice]
      ensures var scriptModule := scriptMap[scriptChoice];
        var files := AcceptedFiles(listing, extension);
        var r := Legacy(scriptModule.info.outputs, files, outcomes);
        && outputTable == Some(r.table) && log == old(log) + r.log && stop == r.stop
        && scriptModule.values
           == LastFileValue(old(scriptModule.values), SingleFileInput(scriptModule.info).value.name, files, r.processed)
      ensures var scriptModule := scriptMap[scriptChoice];
        && scriptModule.resolvedInputs == old(scriptModule.resolvedInputs) + {SingleFileInput(scriptModule.info).value.name}
        && scriptModule.resolvedOutputs == old(scriptModule.resolvedOutputs) + set o | o in scriptModule.info.outputs
    {
      var scriptModule := scriptMap[scriptChoice];
      var fileInput := SingleFileInput(scriptModule.info).value;
      scriptModule.ResolveInput(fileInput.name);
      var table := StartOutputTable(scriptModule);
      outputTable := Some(table);
      var files := AcceptedFiles(listing, extension);
      var counter;
      stop, counter := ProcessListed(scriptModule, fileInput.name, files, outcomes);
    }

    /**
     * The loop of `run` over the accepted files, with the counter `i`: set
     * the file into the input, append its row, and write the outputs of a
     * successful run; an interrupted run logs and returns, a failed one logs.
     * Unless a `set` throws, the counter it ends with is the number of output
     * values the runs of the files it took on returned.
     */
    method ProcessListed(scriptModule: Module, inputName: string, files: seq<FileRef>, outcomes: seq<Outcome>)
      returns (stop: LegacyStop, i: nat)
      requires outputTable.Some? && outputTable.value.rows == [] && |outcomes| == |files|
      modifies this`outputTable, this`log, scriptModule`values
      ensures var r := PassFrom(old(outputTable.value), 0, [], files, outcomes, 0, false);
        && outputTable == Some(r.table) && log == old(log) + r.log && stop == r.stop
        && scriptModule.values == LastFileValue(old(scriptModule.values), inputName, files, r.processed)
        && (stop != SetThrew ==> i == OutputsReturned(outcomes, r.processed))
    {
      ghost var start := outputTable.value;
      ghost var startLog := log;
      ghost var startValues := scriptModule.values;
      ghost var batchLog: seq<LogEntry> := [];
      i := 0;
      var k := 0;
      while k < |files|
        invariant 0 <= k <= |files| && outputTable.Some?
        invariant PassFrom(start, 0, [], files, outcomes, 0, false) == PassFrom(outputTable.value, i, batchLog, files, outcomes, k, false)
        invariant log == startLog + batchLog
        invariant scriptModule.values == LastFileValue(startValues, inputName, files, k)
        invariant i == OutputsReturned(outcomes, k)
        decreases |files| - k
      {
        scriptModule.SetInput(inputName, FileValue(files[k]));
        LastFileStep(startValues, inputName, files, k);
        outputTable := Some(AppendRow(outputTable.value, files[k].name));
        match outcomes[k] {
          case Succeeded(outputs) =>
            var threw;
            i, threw := WriteCounted(outputs, i);
            if threw {
              return SetThrew, i;
            }
          case Interrupted =>
            log := log + FailureLog(outcomes[k]);
            AppendAssoc(startLog, batchLog, FailureLog(outcomes[k]));
            return InterruptedReturn, i;
          case ExecutionFailed =>
            log := log + FailureLog(outcomes[k]);
            AppendAssoc(startLog, batchLog, FailureLog(outcomes[k]));
            batchLog := batchLog + FailureLog(outcomes[k]);
        }
        k := k + 1;
      }
      return AllListed, i;
    }

    /**
     * The loop of `run` over the entries of one run's outputs map: output
     * after output, set the value in row `i` of its column and move `i` on,
     * until a `set` throws. Without a throw, `i` moves on by the number of
     * outputs.
     */
    method WriteCounted(outputs: seq<Output>, counter: nat) returns (next: nat, threw: bool)
      requires outputTable.Some?
      modifies this`outputTable
      ensures var w := SetOutputs(old(outputTable.value), outputs, counter, true);
        outputTable == Some(w.table) && next == w.row && threw == w.threw
      ensures !threw ==> next == counter + |outputs|
    {
      next := counter;
      for j := 0 to |outputs|
        invariant outputTable.Some? && next == counter + j
        invariant SetOutputs(old(outputTable.value), outputs, counter, true) == SetOutputs(outputTable.value, outputs[j..], next, true)
      {
        assert outputs[j..][1..] == outputs[j + 1..];
        var row := next;
        next := next + 1;
        var written := SetCell(outputTable.value, outputs[j].key, row, outputs[j].value);
        if written.None? {
          return next, true;
        }
        outputTable := written;
      }
      assert outputs[|outputs|..] == [];
      threw := false;
    }
  }
}
