/**
  * FixedWidthTableHelper.ToString: the imperative rendering over a grid of
  * cell strings, the column sizes and the totals, proved to produce what
  * TableLayout.Table.Rendered describes.
  */
module FixedWidthTableHelper {
  import opened Wrappers
  import opened Text
  import opened TableConfiguration
  import opened TableLayout

  /**
    * Renders `rows` (one raw value per property, for every record) as a
    * fixed-width table. Fails exactly when there are no records and some
    * value-type column asks for a total.
    */
  method ToString(props: seq<Property>, rows: seq<seq<int>>, config: Configuration, ext: Externals)
    returns (r: Result<string, RenderError>)
    requires Table(props, rows, config.properties, ext).WellFormed()
    requires Table(props, rows, config.properties, ext).TotalsOnValueTypes()
    ensures r == Table(props, rows, config.properties, ext).Rendered()
    ensures r.Failure? <==> |rows| == 0 && Table(props, rows, config.properties, ext).AnyTotal()
  {
    var t := Table(props, rows, config.properties, ext);
    var grid := new string[|rows| + 1, |props|];
    var columnSizes := new nat[|props|](_ => 0);
    var totals := new Option<int>[|props|](_ => None);
    var totalsStr := new Option<string>[|props|](_ => None);
    FillHeader(t, config, grid, columnSizes, totals);
    FillRows(t, config, grid, columnSizes, totals, totalsStr);
    var sb := AppendGrid(t, config, grid, columnSizes);
    r := AppendTotals(t, config, sb, columnSizes, totals, totalsStr);
  }

  /** The header row: configured header or property name, the first column sizes, the totals slots. */
  method FillHeader(t: Table, config: Configuration, grid: array2<string>, columnSizes: array<nat>,
                    totals: array<Option<int>>)
    requires t.WellFormed() && t.config == config.properties
    requires grid.Length0 == |t.rows| + 1 && grid.Length1 == |t.props|
    requires columnSizes.Length == |t.props| && totals.Length == |t.props|
    requires forall k | 0 <= k < |t.props| :: columnSizes[k] == 0
    modifies grid, columnSizes, totals
    ensures forall k | 0 <= k < |t.props| :: grid[0, k] == t.GridText(0, k)
    ensures forall r, k | 1 <= r < grid.Length0 && 0 <= k < |t.props| :: grid[r, k] == old(grid[r, k])
    ensures forall k | 0 <= k < |t.props| :: columnSizes[k] == t.ContentWidth(k, 0)
    ensures forall k | 0 <= k < |t.props| :: totals[k] == if t.HasTotal(k) then Some(t.ColumnSum(k, 0)) else None
  {
    for i := 0 to |t.props|
      invariant forall k | 0 <= k < i :: grid[0, k] == t.GridText(0, k)
      invariant forall r, k | 1 <= r < grid.Length0 && 0 <= k < |t.props| :: grid[r, k] == old(grid[r, k])
      invariant forall k | 0 <= k < i :: columnSizes[k] == t.ContentWidth(k, 0)
      invariant forall k | i <= k < |t.props| :: columnSizes[k] == 0
      invariant forall k | 0 <= k < i :: totals[k] == if t.HasTotal(k) then Some(0) else None
    {
      var pc := config.Get(t.props[i].name);
      var value := if pc.Some? && pc.value.header.Some? then pc.value.header.value else t.props[i].name;
      grid[0, i] := value;
      columnSizes[i] := if |value| > columnSizes[i] then |value| else columnSizes[i];
      totals[i] := if pc.Some? && pc.value.total && t.props[i].isValueType then Some(0) else None;
    }
  }

  /** Every record: its cells, the column sizes, the running totals, and the formatted totals after the last record. */
  method FillRows(t: Table, config: Configuration, grid: array2<string>, columnSizes: array<nat>,
                  totals: array<Option<int>>, totalsStr: array<Option<string>>)
    requires t.WellFormed() && t.TotalsOnValueTypes() && t.config == config.properties
    requires grid.Length0 == |t.rows| + 1 && grid.Length1 == |t.props|
    requires columnSizes.Length == |t.props| && totals.Length == |t.props| && totalsStr.Length == |t.props|
    requires forall k | 0 <= k < |t.props| :: grid[0, k] == t.GridText(0, k)
    requires forall k | 0 <= k < |t.props| :: columnSizes[k] == t.ContentWidth(k, 0)
    requires forall k | 0 <= k < |t.props| :: totals[k] == if t.HasTotal(k) then Some(t.ColumnSum(k, 0)) else None
    requires forall k | 0 <= k < |t.props| :: totalsStr[k] == None
    modifies grid, columnSizes, totals, totalsStr
    ensures forall i, k | 0 <= i <= |t.rows| && 0 <= k < |t.props| :: grid[i, k] == t.GridText(i, k)
    ensures forall k | 0 <= k < |t.props| :: columnSizes[k] == t.Width(k)
    ensures forall k | 0 <= k < |t.props| :: (totals[k] != None) == t.HasTotal(k)
    ensures forall k | 0 <= k < |t.props| ::
      totals[k] == if t.HasTotal(k) then Some(t.ColumnSum(k, |t.rows|)) else None
    ensures forall k | 0 <= k < |t.props| :: totalsStr[k] == t.TotalText(k)
  {
    if |t.rows| == 0 {
      forall k | 0 <= k < |t.props|
        ensures t.Width(k) == t.ContentWidth(k, 0) && t.TotalText(k) == None
      {
      }
    }
    for i := 1 to |t.rows| + 1
      invariant forall r, k | 0 <= r < i && 0 <= k < |t.props| :: grid[r, k] == t.GridText(r, k)
      invariant forall k | 0 <= k < |t.props| ::
        columnSizes[k] == if i - 1 == |t.rows| then t.Width(k) else t.ContentWidth(k, i - 1)
      invariant forall k | 0 <= k < |t.props| :: totals[k] == if t.HasTotal(k) then Some(t.ColumnSum(k, i - 1)) else None
      invariant forall k | 0 <= k < |t.props| :: totalsStr[k] == if i - 1 == |t.rows| then t.TotalText(k) else None
    {
      FillRow(t, config, i, grid, columnSizes, totals, totalsStr);
    }
  }

  /** Record `i - 1` into row `i` of the grid. */
  method FillRow(t: Table, config: Configuration, i: nat, grid: array2<string>, columnSizes: array<nat>,
                 totals: array<Option<int>>, totalsStr: array<Option<string>>)
    requires t.WellFormed() && t.TotalsOnValueTypes() && t.config == config.properties
    requires 1 <= i <= |t.rows|
    requires grid.Length0 == |t.rows| + 1 && grid.Length1 == |t.props|
    requires columnSizes.Length == |t.props| && totals.Length == |t.props| && totalsStr.Length == |t.props|
    requires forall k | 0 <= k < |t.props| :: columnSizes[k] == t.ContentWidth(k, i - 1)
    requires forall k | 0 <= k < |t.props| :: totals[k] == if t.HasTotal(k) then Some(t.ColumnSum(k, i - 1)) else None
    requires forall k | 0 <= k < |t.props| :: totalsStr[k] == None
    modifies grid, columnSizes, totals, totalsStr
    ensures forall r, k | 0 <= r < grid.Length0 && r != i && 0 <= k < |t.props| :: grid[r, k] == old(grid[r, k])
    ensures forall k | 0 <= k < |t.props| :: grid[i, k] == t.GridText(i, k)
    ensures forall k | 0 <= k < |t.props| ::
      columnSizes[k] == if i == |t.rows| then t.Width(k) else t.ContentWidth(k, i)
    ensures forall k | 0 <= k < |t.props| :: totals[k] == if t.HasTotal(k) then Some(t.ColumnSum(k, i)) else None
    ensures forall k | 0 <= k < |t.props| :: totalsStr[k] == if i == |t.rows| then t.TotalText(k) else None
  {
    for j := 0 to |t.props|
      invariant forall r, k | 0 <= r < grid.Length0 && r != i && 0 <= k < |t.props| :: grid[r, k] == old(grid[r, k])
      invariant forall k | 0 <= k < j :: grid[i, k] == t.GridText(i, k)
      invariant forall k | 0 <= k < j ::
        columnSizes[k] == if i == |t.rows| then t.Width(k) else t.ContentWidth(k, i)
      invariant forall k | j <= k < |t.props| :: columnSizes[k] == t.ContentWidth(k, i - 1)
      invariant forall k | 0 <= k < j :: totals[k] == if t.HasTotal(k) then Some(t.ColumnSum(k, i)) else None
      invariant forall k | j <= k < |t.props| ::
        totals[k] == if t.HasTotal(k) then Some(t.ColumnSum(k, i - 1)) else None
      invariant forall k | 0 <= k < j :: totalsStr[k] == if i == |t.rows| then t.TotalText(k) else None
      invariant forall k | j <= k < |t.props| :: totalsStr[k] == None
    {
      FillCell(t, config, i, j, grid, columnSizes, totals, totalsStr);
    }
  }

  /** Cell `j` of record `i - 1`: its text, its column size, its running total and, after the last record, its formatted total. */
  method FillCell(t: Table, config: Configuration, i: nat, j: nat, grid: array2<string>, columnSizes: array<nat>,
                  totals: array<Option<int>>, totalsStr: array<Option<string>>)
    requires t.WellFormed() && t.TotalsOnValueTypes() && t.config == config.properties
    requires 1 <= i <= |t.rows| && j < |t.props|
    requires grid.Length0 == |t.rows| + 1 && grid.Length1 == |t.props|
    requires columnSizes.Length == |t.props| && totals.Length == |t.props| && totalsStr.Length == |t.props|
    requires columnSizes[j] == t.ContentWidth(j, i - 1)
    requires totals[j] == if t.HasTotal(j) then Some(t.ColumnSum(j, i - 1)) else None
    requires totalsStr[j] == None
    modifies grid, columnSizes, totals, totalsStr
    ensures forall r, k | 0 <= r < grid.Length0 && 0 <= k < |t.props| && (r, k) != (i, j) :: grid[r, k] == old(grid[r, k])
    ensures forall k | 0 <= k < |t.props| && k != j :: columnSizes[k] == old(columnSizes[k])
    ensures forall k | 0 <= k < |t.props| && k != j :: totals[k] == old(totals[k])
    ensures forall k | 0 <= k < |t.props| && k != j :: totalsStr[k] == old(totalsStr[k])
    ensures grid[i, j] == t.GridText(i, j)
    ensures columnSizes[j] == if i == |t.rows| then t.Width(j) else t.ContentWidth(j, i)
    ensures totals[j] == if t.HasTotal(j) then Some(t.ColumnSum(j, i)) else None
    ensures totalsStr[j] == if i == |t.rows| then t.TotalText(j) else None
  {
    var item := t.rows[i - 1];
    var pc := config.Get(t.props[j].name);
    var value := if pc.Some? && pc.value.format.Some?
                 then t.ext.formatWith(pc.value.formatProvider, pc.value.format.value, item[j])
                 else t.ext.toText(item[j]);
    grid[i, j] := value;
    columnSizes[j] := if |value| > columnSizes[j] then |value| else columnSizes[j];
    if pc.Some? && pc.value.total {
      totals[j] := Some(totals[j].value + item[j]);
    }
    if i == |t.rows| && pc.Some? && pc.value.total {
      var total := if pc.value.format.Some?
                   then t.ext.formatWith(pc.value.formatProvider, pc.value.format.value, totals[j].value)
                   else t.ext.toText(totals[j].value);
      columnSizes[j] := if |total| > columnSizes[j] then |total| else columnSizes[j];
      totalsStr[j] := Some(total);
    }
  }

  /** The header and record lines, each ended by a new line. */
  method AppendGrid(t: Table, config: Configuration, grid: array2<string>, columnSizes: array<nat>)
    returns (sb: string)
    requires t.WellFormed() && t.config == config.properties
    requires grid.Length0 == |t.rows| + 1 && grid.Length1 == |t.props| && columnSizes.Length == |t.props|
    requires forall i, k | 0 <= i <= |t.rows| && 0 <= k < |t.props| :: grid[i, k] == t.GridText(i, k)
    requires forall k | 0 <= k < |t.props| :: columnSizes[k] == t.Width(k)
    ensures sb == Concat(Terminate(t.GridLines(), t.ext.newLine))
  {
    ghost var lines := Terminate(t.GridLines(), t.ext.newLine);
    sb := "";
    for i := 0 to |t.rows| + 1
      invariant sb == Concat(lines[..i])
    {
      ConcatSnoc(lines, i);
      assert lines[i] == t.GridLine(i) + t.ext.newLine;
      sb := AppendRow(t, config, grid, columnSizes, i, sb);
      AppendAssociates(Concat(lines[..i]), t.GridLine(i), t.ext.newLine);
      sb := sb + t.ext.newLine;
    }
    assert lines[..|t.rows| + 1] == lines;
  }

  /** Row `i` of the grid, every cell padded to its column's size by its column's alignment. */
  method AppendRow(t: Table, config: Configuration, grid: array2<string>, columnSizes: array<nat>, i: nat,
                   sb: string)
    returns (sb': string)
    requires t.WellFormed() && t.config == config.properties && i <= |t.rows|
    requires grid.Length0 == |t.rows| + 1 && grid.Length1 == |t.props| && columnSizes.Length == |t.props|
    requires forall k | 0 <= k < |t.props| :: grid[i, k] == t.GridText(i, k)
    requires forall k | 0 <= k < |t.props| :: columnSizes[k] == t.Width(k)
    ensures sb' == sb + t.GridLine(i)
  {
    ghost var cells := t.GridCells(i);
    sb' := sb;
    for j := 0 to |t.props|
      invariant sb' == sb + Concat(cells[..j])
    {
      var pc := config.Get(t.props[j].name);
      var value := Align(pc, grid[i, j], columnSizes[j] + Spacing, t.ext.centerLead);
      assert value == cells[j];
      ConcatSnoc(cells, j);
      AppendAssociates(sb, Concat(cells[..j]), value);
      sb' := sb' + value;
    }
    assert cells[..|t.props|] == cells;
  }

  /**
    * The separator and the totals line when some column has a totals slot, then
    * the trim. A totals slot without a formatted total (no records) is the
    * null dereference of the source.
    */
  method AppendTotals(t: Table, config: Configuration, sb: string, columnSizes: array<nat>,
                      totals: array<Option<int>>, totalsStr: array<Option<string>>)
    returns (r: Result<string, RenderError>)
    requires t.WellFormed() && t.config == config.properties
    requires columnSizes.Length == |t.props| && totals.Length == |t.props| && totalsStr.Length == |t.props|
    requires forall k | 0 <= k < |t.props| :: columnSizes[k] == t.Width(k)
    requires forall k | 0 <= k < |t.props| :: (totals[k] != None) == t.HasTotal(k)
    requires forall k | 0 <= k < |t.props| :: totalsStr[k] == t.TotalText(k)
    requires sb == Concat(Terminate(t.GridLines(), t.ext.newLine))
    ensures r == t.Rendered()
  {
    if exists k | 0 <= k < totals.Length :: totals[k] != None {
      var line := AppendTotalsLine(t, config, columnSizes, totals, totalsStr);
      if line.Failure? {
        r := Failure(line.error);
      } else {
        var separator := SeparatorOf(t, columnSizes);
        r := Success(TrimLineBreaks(sb + (separator + t.ext.newLine + line.value)));
      }
    } else {
      assert !t.AnyTotal();
      r := Success(TrimLineBreaks(sb + ""));
    }
  }

  /** The separator: one dash for every character of a line. */
  method SeparatorOf(t: Table, columnSizes: array<nat>) returns (separator: string)
    requires t.WellFormed()
    requires columnSizes.Length == |t.props|
    requires forall k | 0 <= k < |t.props| :: columnSizes[k] == t.Width(k)
    ensures separator == t.Separator()
  {
    assert columnSizes[..] == t.Widths();
    separator := Repeat('-', SumNat(columnSizes[..]) + |t.props| * Spacing);
  }

  /** The totals line: the padded total of every totals column, spaces elsewhere. */
  method AppendTotalsLine(t: Table, config: Configuration, columnSizes: array<nat>,
                          totals: array<Option<int>>, totalsStr: array<Option<string>>)
    returns (line: Result<string, RenderError>)
    requires t.WellFormed() && t.config == config.properties
    requires columnSizes.Length == |t.props| && totals.Length == |t.props| && totalsStr.Length == |t.props|
    requires forall k | 0 <= k < |t.props| :: columnSizes[k] == t.Width(k)
    requires forall k | 0 <= k < |t.props| :: (totals[k] != None) == t.HasTotal(k)
    requires forall k | 0 <= k < |t.props| :: totalsStr[k] == t.TotalText(k)
    ensures line.Failure? <==> |t.rows| == 0 && t.AnyTotal()
    ensures line.Failure? ==> line.error == NullTotalText
    ensures line.Success? && |t.rows| > 0 ==> line.value == t.TotalsLine()
  {
    var sb := "";
    for i := 0 to |t.props|
      invariant |t.rows| > 0 ==> sb == Concat(t.TotalsCells()[..i])
      invariant forall k | 0 <= k < i :: !(|t.rows| == 0 && t.HasTotal(k))
    {
      var cell := TotalsCellText(t, config, i, columnSizes, totals, totalsStr);
      if cell.None? {
        return Failure(NullTotalText);
      }
      if |t.rows| > 0 {
        ConcatSnoc(t.TotalsCells(), i);
      }
      sb := sb + cell.value;
    }
    if |t.rows| > 0 {
      assert t.TotalsCells()[..|t.props|] == t.TotalsCells();
    }
    line := Success(sb);
  }

  /**
    * Column `i` of the totals line: blank without a totals slot, the padded
    * formatted total with one, and nothing when the slot has no formatted
    * total (no records).
    */
  method TotalsCellText(t: Table, config: Configuration, i: nat, columnSizes: array<nat>,
                        totals: array<Option<int>>, totalsStr: array<Option<string>>)
    returns (cell: Option<string>)
    requires t.WellFormed() && t.config == config.properties && i < |t.props|
    requires columnSizes.Length == |t.props| && totals.Length == |t.props| && totalsStr.Length == |t.props|
    requires columnSizes[i] == t.Width(i)
    requires (totals[i] != None) == t.HasTotal(i)
    requires totalsStr[i] == t.TotalText(i)
    ensures cell.None? <==> |t.rows| == 0 && t.HasTotal(i)
    ensures cell.Some? && |t.rows| > 0 ==> cell.value == t.TotalsCell(i)
    ensures !t.HasTotal(i) ==> cell == Some(Repeat(' ', t.Width(i) + Spacing))
  {
    if totals[i] == None {
      cell := Some(Repeat(' ', columnSizes[i] + Spacing));
    } else {
      var pc := config.Get(t.props[i].name);
      match totalsStr[i]
      case None =>
        cell := None;
      case Some(value) =>
        cell := Some(Align(pc, value, columnSizes[i] + Spacing, t.ext.centerLead));
    }
  }
}
