/**
 * The result table (`DefaultGenericTable`) as a value: column headers in the
 * order they were appended and rows, each with its label (the row header) and
 * the cells set so far. A cell never set is empty (`null` in the table).
 */
module Tables {
  import opened Wrappers
  import opened Runtime

  datatype Row = Row(header: string, cells: map<string, Value>)

  datatype Table = Table(columns: seq<string>, rows: seq<Row>)

  /** `new DefaultGenericTable()`. */
  const EmptyTable := Table([], [])

  /** `appendColumn(header)`. */
  function AppendColumn(t: Table, header: string): Table {
    t.(columns := t.columns + [header])
  }

  /** `appendRow(name)`: one more row, all of its cells empty. */
  function AppendRow(t: Table, name: string): Table {
    t.(rows := t.rows + [Row(name, map[])])
  }

  /**
   * `set(column, row, value)`: `None` where the table throws, that is when no
   * column has that header or the row index is out of range.
   */
  function SetCell(t: Table, column: string, row: int, v: Value): (r: Option<Table>)
    ensures r.Some? <==> column in t.columns && 0 <= row < |t.rows|
    ensures r.Some? ==> r.value.columns == t.columns && |r.value.rows| == |t.rows|
    ensures r.Some? ==> r.value.rows[row].header == t.rows[row].header
    ensures r.Some? ==> r.value.rows[row].cells == t.rows[row].cells[column := v]
    ensures r.Some? ==> forall j :: 0 <= j < |t.rows| && j != row ==> r.value.rows[j] == t.rows[j]
  {
    if column in t.columns && 0 <= row < |t.rows| then
      var was := t.rows[row];
      Some(t.(rows := t.rows[row := Row(was.header, was.cells[column := v])]))
    else None
  }

  /** The cells of a row once every entry of an outputs map has been written into it, in iteration order. */
  function WithOutputs(cells: map<string, Value>, outputs: seq<Output>): (r: map<string, Value>)
    decreases |outputs|
  {
    if outputs == [] then cells
    else WithOutputs(cells[outputs[0].key := outputs[0].value], outputs[1..])
  }

  /** The keys of an outputs map. */
  function OutputKeys(outputs: seq<Output>): (r: set<string>)
    ensures forall k :: 0 <= k < |outputs| ==> outputs[k].key in r
    ensures forall key :: key in r ==> exists k :: 0 <= k < |outputs| && outputs[k].key == key
    decreases |outputs|
  {
    if outputs == [] then {}
    else
      var rest := OutputKeys(outputs[1..]);
      assert forall key :: key in rest ==> exists k :: 1 <= k < |outputs| && outputs[k].key == key by {
        forall key | key in rest ensures exists k :: 1 <= k < |outputs| && outputs[k].key == key {
          var j :| 0 <= j < |outputs[1..]| && outputs[1..][j].key == key;
          assert outputs[j + 1].key == key;
        }
      }
      {outputs[0].key} + rest
  }

  /**
   * Writing an outputs map with distinct keys into a row gives every output
   * key its value and leaves the other cells as they were.
   */
  lemma {:induction false} WithOutputsCells(cells: map<string, Value>, outputs: seq<Output>)
    requires DistinctKeys(outputs)
    ensures WithOutputs(cells, outputs).Keys == cells.Keys + OutputKeys(outputs)
    ensures forall k :: 0 <= k < |outputs| ==> WithOutputs(cells, outputs)[outputs[k].key] == outputs[k].value
    ensures forall key :: key in cells && key !in OutputKeys(outputs) ==> WithOutputs(cells, outputs)[key] == cells[key]
    decreases |outputs|
  {
    if outputs != [] {
      var rest := outputs[1..];
      var next := cells[outputs[0].key := outputs[0].value];
      assert DistinctKeys(rest);
      WithOutputsCells(next, rest);
      forall k | 0 <= k < |outputs|
        ensures WithOutputs(cells, outputs)[outputs[k].key] == outputs[k].value
      {
        if k > 0 {
          assert outputs[k] == rest[k - 1];
        } else {
          assert outputs[0].key !in OutputKeys(rest);
        }
      }
    }
  }
}
