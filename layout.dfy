/**
  * What FixedWidthTableHelper.ToString produces, as functions of its inputs:
  * the cell texts, the column widths, the padded cells, the lines and the
  * final text; and the properties of that layout.
  */
module TableLayout {
  import opened Wrappers
  import opened Text
  import opened TableConfiguration

  /** Spaces added to every column's width. */
  const Spacing: nat := 2

  /** A property of the record type: its name and whether its type is a value type. */
  datatype Property = Property(name: string, isValueType: bool)

  /**
    * The calls the renderer makes into code outside the model: the value's
    * ToString(), string.Format(provider, "{0:" + format + "}", value), the way
    * PadBoth splits the spaces, and Environment.NewLine.
    */
  datatype Externals = Externals(
    toText: int -> string,
    formatWith: (Option<FormatProvider>, string, int) -> string,
    centerLead: (string, nat) -> nat,
    newLine: string)

  /** The NullReferenceException raised when a total that was never formatted is padded. */
  datatype RenderError = NullTotalText

  predicate LeftAligned(setting: Option<ColumnProperty>) {
    setting.None? || setting.value.alignment < 0
  }

  predicate RightAligned(setting: Option<ColumnProperty>) {
    setting.Some? && setting.value.alignment > 0
  }

  predicate Centered(setting: Option<ColumnProperty>) {
    setting.Some? && setting.value.alignment == 0
  }

  /**
    * A cell padded to `width` by its column's alignment (PadRight, PadLeft or
    * PadBoth); see AlignedCell for its shape.
    */
  function Align(setting: Option<ColumnProperty>, s: string, width: nat, centerLead: (string, nat) -> nat): string {
    match setting
    case None => PadRight(s, width)
    case Some(pc) =>
      if pc.alignment < 0 then PadRight(s, width)
      else if pc.alignment > 0 then PadLeft(s, width)
      else PadBoth(s, width, centerLead(s, width))
  }

  /**
    * A text no longer than the width is padded to exactly the width: an
    * unconfigured column or a negative alignment puts the text first and
    * spaces after it, a positive one puts spaces first and the text last, and
    * zero surrounds the text with spaces on both sides.
    */
  lemma AlignedCell(setting: Option<ColumnProperty>, s: string, width: nat, centerLead: (string, nat) -> nat)
    requires |s| <= width
    ensures |Align(setting, s, width, centerLead)| == width
    ensures LeftAligned(setting) ==> Surrounds(Align(setting, s, width, centerLead), s, 0)
    ensures RightAligned(setting) ==> Surrounds(Align(setting, s, width, centerLead), s, width - |s|)
    ensures Centered(setting) ==>
      Surrounds(Align(setting, s, width, centerLead), s, Min(centerLead(s, width), width - |s|))
  {
  }

  /**
    * One call of ToString: the properties of the record type in order, the raw
    * value of every property for every record in order, the configuration's
    * dictionary and the external calls.
    */
  datatype Table = Table(
    props: seq<Property>,
    rows: seq<seq<int>>,
    config: map<string, ColumnProperty>,
    ext: Externals)
  {
    /** Every record has a value per property. */
    predicate WellFormed() {
      forall r | 0 <= r < |rows| :: |rows[r]| == |props|
    }

    /** Totals are asked only of value-type properties. */
    predicate TotalsOnValueTypes() {
      forall j | 0 <= j < |props| :: TotalRequested(j) ==> props[j].isValueType
    }

    function Setting(j: nat): Option<ColumnProperty>
      requires j < |props|
    {
      Lookup(config, props[j].name)
    }

    predicate TotalRequested(j: nat)
      requires j < |props|
    {
      Setting(j).Some? && Setting(j).value.total
    }

    /** The column has a totals slot (`totals[j] != null`). */
    predicate HasTotal(j: nat)
      requires j < |props|
    {
      TotalRequested(j) && props[j].isValueType
    }

    predicate AnyTotal() {
      exists j | 0 <= j < |props| :: HasTotal(j)
    }

    /** The configured header, or else the property's name. */
    function HeaderText(j: nat): string
      requires j < |props|
    {
      var s := Setting(j);
      if s.Some? && s.value.header.Some? then s.value.header.value else props[j].name
    }

    /** A value as the column shows it: with the configured format, or else ToString(). */
    function FormatValue(j: nat, v: int): string
      requires j < |props|
    {
      var s := Setting(j);
      if s.Some? && s.value.format.Some? then ext.formatWith(s.value.formatProvider, s.value.format.value, v)
      else ext.toText(v)
    }

    function CellText(r: nat, j: nat): string
      requires WellFormed() && r < |rows| && j < |props|
    {
      FormatValue(j, rows[r][j])
    }

    /** Row `i` of the grid of texts: the header for 0, record `i - 1` otherwise. */
    function GridText(i: nat, j: nat): string
      requires WellFormed() && i <= |rows| && j < |props|
    {
      if i == 0 then HeaderText(j) else CellText(i - 1, j)
    }

    /** The sum of column `j` over the first `m` records. */
    function ColumnSum(j: nat, m: nat): int
      requires WellFormed() && j < |props| && m <= |rows|
    {
      if m == 0 then 0 else ColumnSum(j, m - 1) + rows[m - 1][j]
    }

    /** The formatted total of a totals column, once every record has been added. */
    function TotalText(j: nat): Option<string>
      requires WellFormed() && j < |props|
    {
      if |rows| > 0 && HasTotal(j) then Some(FormatValue(j, ColumnSum(j, |rows|))) else None
    }

    /** The running maximum of `columnsizes[j]` after the header and the first `m` records. */
    function ContentWidth(j: nat, m: nat): nat
      requires WellFormed() && j < |props| && m <= |rows|
    {
      if m == 0 then |HeaderText(j)| else Max(ContentWidth(j, m - 1), |CellText(m - 1, j)|)
    }

    /** The running maximum is the longest text among the header and the first `m` records. */
    lemma {:induction false} ContentWidthIsMaximum(j: nat, m: nat)
      requires WellFormed() && j < |props| && m <= |rows|
      ensures forall i | 0 <= i <= m :: |GridText(i, j)| <= ContentWidth(j, m)
      ensures exists i | 0 <= i <= m :: |GridText(i, j)| == ContentWidth(j, m)
    {
      if m == 0 {
        assert |GridText(0, j)| == ContentWidth(j, 0);
      } else {
        ContentWidthIsMaximum(j, m - 1);
        assert |GridText(m, j)| == |CellText(m - 1, j)|;
      }
    }

    /** The width of column `j`, spacing not included. */
    function Width(j: nat): nat
      requires WellFormed() && j < |props|
    {
      var c := ContentWidth(j, |rows|);
      match TotalText(j)
      case Some(t) => Max(c, |t|)
      case None => c
    }

    function Widths(): (ws: seq<nat>)
      requires WellFormed()
      ensures |ws| == |props|
    {
      seq(|props|, j requires 0 <= j < |props| => Width(j))
    }

    /** The length of every line: all widths plus the spacing of every column. */
    function LineWidth(): nat
      requires WellFormed()
    {
      SumNat(Widths()) + |props| * Spacing
    }

    /** Where column `j` starts on every line. */
    function ColumnStart(j: nat): nat
      requires WellFormed() && j <= |props|
    {
      SumNat(Widths()[..j]) + j * Spacing
    }

    function PaddedCell(j: nat, s: string): string
      requires WellFormed() && j < |props|
    {
      Align(Setting(j), s, Width(j) + Spacing, ext.centerLead)
    }

    function GridCells(i: nat): (cells: seq<string>)
      requires WellFormed() && i <= |rows|
      ensures |cells| == |props|
    {
      seq(|props|, j requires 0 <= j < |props| => PaddedCell(j, GridText(i, j)))
    }

    /** On the totals line, a totals column shows its total and every other column is blank. */
    function TotalsCell(j: nat): string
      requires WellFormed() && |rows| > 0 && j < |props|
    {
      if HasTotal(j) then PaddedCell(j, TotalText(j).value) else Repeat(' ', Width(j) + Spacing)
    }

    function TotalsCells(): (cells: seq<string>)
      requires WellFormed() && |rows| > 0
      ensures |cells| == |props|
    {
      seq(|props|, j requires 0 <= j < |props| => TotalsCell(j))
    }

    function GridLine(i: nat): string
      requires WellFormed() && i <= |rows|
    {
      Concat(GridCells(i))
    }

    /** The header line, then one line per record. */
    function GridLines(): (lines: seq<string>)
      requires WellFormed()
      ensures |lines| == |rows| + 1
    {
      seq(|rows| + 1, i requires 0 <= i <= |rows| => GridLine(i))
    }

    function Separator(): string
      requires WellFormed()
    {
      Repeat('-', LineWidth())
    }

    function TotalsLine(): string
      requires WellFormed() && |rows| > 0
    {
      Concat(TotalsCells())
    }

    /** Rendering fails exactly when a totals column meets an empty collection. */
    predicate Renders()
      requires WellFormed()
    {
      |rows| > 0 || !AnyTotal()
    }

    /** The lines of the table: the grid lines, then the separator and the totals line if there are totals. */
    function Lines(): seq<string>
      requires WellFormed() && Renders()
    {
      GridLines() + if AnyTotal() then [Separator(), TotalsLine()] else []
    }

    /** What the StringBuilder holds before the final trim. */
    function Buffer(): string
      requires WellFormed() && Renders()
    {
      Concat(Terminate(GridLines(), ext.newLine))
        + if AnyTotal() then Separator() + ext.newLine + TotalsLine() else ""
    }

    /** The result of ToString. */
    function Rendered(): Result<string, RenderError>
      requires WellFormed()
    {
      if Renders() then Success(TrimLineBreaks(Buffer())) else Failure(NullTotalText)
    }

    // ------------------------------------------------------------------
    // Properties of the layout
    // ------------------------------------------------------------------

    /**
      * The width of a column is the largest of its header, its cells and its
      * total: no shorter than any of them, and equal to one of them.
      */
    lemma {:induction false} WidthIsMaximum(j: nat)
      requires WellFormed() && j < |props|
      ensures |HeaderText(j)| <= Width(j)
      ensures forall r | 0 <= r < |rows| :: |CellText(r, j)| <= Width(j)
      ensures TotalText(j).Some? ==> |TotalText(j).value| <= Width(j)
      ensures || Width(j) == |HeaderText(j)|
              || (exists r | 0 <= r < |rows| :: Width(j) == |CellText(r, j)|)
              || (TotalText(j).Some? && Width(j) == |TotalText(j).value|)
    {
      var c := ContentWidth(j, |rows|);
      ContentWidthIsMaximum(j, |rows|);
      assert |GridText(0, j)| <= c;
      forall r | 0 <= r < |rows|
        ensures |CellText(r, j)| <= c
      {
        assert |GridText(r + 1, j)| <= c;
      }
      var i :| 0 <= i <= |rows| && |GridText(i, j)| == c;
      if i > 0 {
        assert c == |CellText(i - 1, j)|;
      }
    }

    /** Every text of the grid fits its column. */
    lemma {:induction false} GridTextFits(i: nat, j: nat)
      requires WellFormed() && i <= |rows| && j < |props|
      ensures |GridText(i, j)| <= Width(j)
    {
      WidthIsMaximum(j);
      if i > 0 {
        assert GridText(i, j) == CellText(i - 1, j);
      }
    }

    /** A padded grid cell is exactly its column's width plus the spacing. */
    lemma {:induction false} GridCellLength(i: nat, j: nat)
      requires WellFormed() && i <= |rows| && j < |props|
      ensures |GridCells(i)[j]| == Width(j) + Spacing
    {
      GridTextFits(i, j);
    }

    /** So is every cell of the totals line. */
    lemma {:induction false} TotalsCellLength(j: nat)
      requires WellFormed() && |rows| > 0 && j < |props|
      ensures |TotalsCells()[j]| == Width(j) + Spacing
    {
      WidthIsMaximum(j);
    }

    lemma {:induction false} GridCellLengths(i: nat)
      requires WellFormed() && i <= |rows|
      ensures forall k | 0 <= k < |props| :: |GridCells(i)[k]| == Width(k) + Spacing
    {
      forall k | 0 <= k < |props|
        ensures |GridCells(i)[k]| == Width(k) + Spacing
      {
        GridCellLength(i, k);
      }
    }

    lemma {:induction false} TotalsCellLengths()
      requires WellFormed() && |rows| > 0
      ensures forall k | 0 <= k < |props| :: |TotalsCells()[k]| == Width(k) + Spacing
    {
      forall k | 0 <= k < |props|
        ensures |TotalsCells()[k]| == Width(k) + Spacing
      {
        TotalsCellLength(k);
      }
    }

    /**
      * The lines of the table are the header, one line per record, and a
      * separator and a totals line exactly when some column has a totals slot;
      * all of them are equally long.
      */
    lemma {:induction false} LinesHaveEqualLength()
      requires WellFormed() && Renders()
      ensures |Lines()| == |rows| + 1 + (if AnyTotal() then 2 else 0)
      ensures forall l | 0 <= l < |Lines()| :: |Lines()[l]| == LineWidth()
    {
      if |props| > 0 {
        forall i | 0 <= i <= |rows|
          ensures |GridLine(i)| == LineWidth()
        {
          GridCellLengths(i);
          ConcatColumns(GridCells(i), Widths(), Spacing, 0);
        }
        if AnyTotal() {
          TotalsCellLengths();
          ConcatColumns(TotalsCells(), Widths(), Spacing, 0);
        }
      } else {
        assert Widths() == [];
      }
    }

    /** Cells of their columns' lengths, laid side by side: column `j` is found at its start. */
    lemma {:induction false} ColumnSlice(cells: seq<string>, j: nat)
      requires WellFormed() && |cells| == |props| && j < |props|
      requires forall k | 0 <= k < |props| :: |cells[k]| == Width(k) + Spacing
      ensures ColumnStart(j) + Width(j) + Spacing <= |Concat(cells)|
      ensures Concat(cells)[ColumnStart(j)..ColumnStart(j) + Width(j) + Spacing] == cells[j]
    {
      var ws := Widths();
      assert forall k | 0 <= k < |props| :: |cells[k]| == ws[k] + Spacing;
      ConcatColumns(cells, ws, Spacing, j);
    }

    /**
      * Line `i` of the grid holds, at column `j`'s position, the text of row `i`
      * (the header for 0, record `i - 1` otherwise) padded to its column.
      */
    lemma {:induction false} CellPosition(i: nat, j: nat)
      requires WellFormed() && i <= |rows| && j < |props|
      ensures ColumnStart(j) + Width(j) + Spacing <= |GridLine(i)|
      ensures GridLine(i)[ColumnStart(j)..ColumnStart(j) + Width(j) + Spacing] == PaddedCell(j, GridText(i, j))
    {
      GridCellLengths(i);
      ColumnSlice(GridCells(i), j);
    }

    /**
      * The header line holds at column `j` the configured header, or else the
      * property's name, aligned like the column's cells.
      */
    lemma {:induction false} HeaderCell(j: nat)
      requires WellFormed() && j < |props|
      ensures var h := if Setting(j).Some? && Setting(j).value.header.Some? then Setting(j).value.header.value
                       else props[j].name;
              && ColumnStart(j) + Width(j) + Spacing <= |GridLine(0)|
              && GridLine(0)[ColumnStart(j)..ColumnStart(j) + Width(j) + Spacing] == PaddedCell(j, h)
    {
      CellPosition(0, j);
    }

    /**
      * On the totals line a totals column shows the sum of its values, formatted
      * like its cells and aligned like them; every other column is spaces.
      */
    lemma {:induction false} TotalsCellPosition(j: nat)
      requires WellFormed() && |rows| > 0 && j < |props|
      ensures ColumnStart(j) + Width(j) + Spacing <= |TotalsLine()|
      ensures var cell := TotalsLine()[ColumnStart(j)..ColumnStart(j) + Width(j) + Spacing];
              && (HasTotal(j) ==> cell == PaddedCell(j, FormatValue(j, ColumnSum(j, |rows|))))
              && (!HasTotal(j) ==> AllSpaces(cell))
    {
      TotalsCellLengths();
      ColumnSlice(TotalsCells(), j);
      assert TotalsCells()[j] == TotalsCell(j);
    }

    /** The builder holds the lines joined by the new-line string, plus one after the grid when there are no totals. */
    lemma {:induction false} BufferIsJoinedLines()
      requires WellFormed() && Renders()
      ensures Buffer() == Join(Lines(), ext.newLine) + (if AnyTotal() then "" else ext.newLine)
    {
      var nl, grid := ext.newLine, GridLines();
      if AnyTotal() {
        TerminatedThenTwo(grid, Separator(), TotalsLine(), nl);
      } else {
        ConcatTerminated(grid, nl);
        assert Lines() == grid;
      }
    }

    /**
      * ToString fails exactly when there are no records and some column has a
      * totals slot; otherwise its text is the lines joined by the new-line
      * string with trailing line breaks trimmed, and never ends in one.
      */
    lemma {:induction false} RenderedIsTrimmedLines()
      requires WellFormed()
      requires ext.newLine != [] && AllLineBreaks(ext.newLine)
      ensures Rendered().Failure? <==> |rows| == 0 && AnyTotal()
      ensures Rendered().Success? ==> Rendered().value == TrimLineBreaks(Join(Lines(), ext.newLine))
      ensures Rendered().Success? && Rendered().value != [] ==> !IsLineBreak(Rendered().value[|Rendered().value| - 1])
    {
      if Renders() {
        BufferIsJoinedLines();
        var joined := Join(Lines(), ext.newLine);
        if !AnyTotal() {
          TrimIgnoresTrailingBreaks(joined, ext.newLine);
        } else {
          assert Buffer() == joined + "" == joined;
        }
      }
    }

    /** A left-aligned last column ends every grid line in a space. */
    lemma {:induction false} GridLineEndsInSpace(i: nat)
      requires WellFormed() && i <= |rows|
      requires |props| > 0 && LeftAligned(Setting(|props| - 1))
      ensures GridLine(i) != [] && GridLine(i)[|GridLine(i)| - 1] == ' '
    {
      var c := |props| - 1;
      var cells := GridCells(i);
      GridTextFits(i, c);
      AlignedCell(Setting(c), GridText(i, c), Width(c) + Spacing, ext.centerLead);
      SurroundedEndsInSpace(cells[c], GridText(i, c), 0);
      LastPartEnds(cells);
    }

    /** A left-aligned last column ends the totals line in a space. */
    lemma {:induction false} TotalsLineEndsInSpace()
      requires WellFormed() && |rows| > 0
      requires |props| > 0 && LeftAligned(Setting(|props| - 1))
      ensures TotalsLine() != [] && TotalsLine()[|TotalsLine()| - 1] == ' '
    {
      var c := |props| - 1;
      var cells := TotalsCells();
      if HasTotal(c) {
        var t := TotalText(c).value;
        WidthIsMaximum(c);
        AlignedCell(Setting(c), t, Width(c) + Spacing, ext.centerLead);
        SurroundedEndsInSpace(cells[c], t, 0);
      }
      LastPartEnds(cells);
    }

    /** When the last column is left-aligned, the last line ends in a space. */
    lemma {:induction false} LastLineEndsInSpace()
      requires WellFormed() && Renders()
      requires |props| > 0 && LeftAligned(Setting(|props| - 1))
      ensures var last := Lines()[|Lines()| - 1]; last != [] && last[|last| - 1] == ' '
    {
      if AnyTotal() {
        TotalsLineEndsInSpace();
        assert Lines()[|Lines()| - 1] == TotalsLine();
      } else {
        GridLineEndsInSpace(|rows|);
        assert Lines()[|Lines()| - 1] == GridLine(|rows|);
      }
    }

    /**
      * When the last column is left-aligned (the default), every line ends in
      * spaces, so the trim removes only the final line break: the text is
      * exactly the lines joined by the new-line string.
      */
    lemma {:induction false} LeftAlignedLastColumnKeepsLines()
      requires WellFormed() && Renders()
      requires ext.newLine != [] && AllLineBreaks(ext.newLine)
      requires |props| > 0 && LeftAligned(Setting(|props| - 1))
      ensures Rendered() == Success(Join(Lines(), ext.newLine))
    {
      RenderedIsTrimmedLines();
      LastLineEndsInSpace();
      JoinEndingInSpaceIsKept(Lines(), ext.newLine);
    }
  }
}
