# Fixed-width tables of ArkBot

`FixedWidthTableHelper.ToString<T>` renders a list of records as a plain-text
table. It has one column per public property of the record type. The first line
holds the headers. Each record follows on its own line. When some columns ask for
totals, a line of dashes and a totals line come last. Every column is as wide as
its widest text plus two spaces. A column is padded left, right or on both sides,
according to its configured alignment. Columns are configured through
`FixedWidthTableConfigurationBuilder<T>.For`. That method extracts a property name
from a selector expression and adds the settings for that name to a
`FixedWidthTableConfiguration`: a dictionary from property name to header,
format, format provider, alignment and totals flag.

The model has five modules:

- `Wrappers`: `Option` and `Result`.
- `Text`: the string operations the renderer uses.
  - `PadRight`, `PadLeft` and `PadBoth`.
  - `TrimLineBreaks`, which is `TrimEnd('\r', '\n')`.
  - Concatenation of appended parts, as a StringBuilder does it, and joining lines with a new-line string.
  - Lemmas about these operations.
- `TableConfiguration`: the configuration classes.
  - `Configuration` is a class. Its field is the dictionary, a `map`. It has the methods `Add` and `Get`.
  - `Builder` owns a `Configuration` and has the method `For`.
  - A selector is modelled by the shape of its expression tree, `SelectorBody`.
- `TableLayout`: the `Table` datatype. It states what the output is, as functions of the inputs:
  - the text of every cell;
  - the width of every column;
  - every padded cell and every line;
  - the final text.

  The module's lemmas state the layout's properties.
- `FixedWidthTableHelper`: `ToString` as the source writes it. It fills a `string` grid (`array2`) and the `columnsizes`, `totals` and `totalsStr` arrays, then appends the padded cells line by line.
  - Every loop has its own method, and each method is proved against `TableLayout`.
  - Its postcondition is `r == Table(...).Rendered()`.

The inputs are modelled as follows:

- Reflection over the record type becomes a sequence of `Property(name, isValueType)`.
- The records become their raw property values, one `int` per property.
- Calls into code the model cannot see are fields of `Externals`:
  - `ToString()`;
  - `string.Format(provider, "{0:fmt}", value)`;
  - how `PadBoth` splits the spaces;
  - `Environment.NewLine`.

## Model

| member | source | states |
|---|---|---|
| FixedWidthTableHelper.ToString | ArkBot/Helpers/FixedWidthTableHelper.cs:14-99 | The text built from the grid, column sizes and totals is exactly `Table.Rendered()`. It fails exactly when there are no records and some value-type column asks for a total; `string.Format` is taken never to throw. |
| FixedWidthTableHelper.FillHeader | ArkBot/Helpers/FixedWidthTableHelper.cs:27-34 | Row 0 of the grid holds each configured header, or else the property name. Each column size is that text's length, and the record rows of the grid are untouched. A totals slot is opened, at zero, exactly for configured totals on value-type properties. |
| FixedWidthTableHelper.FillRows | ArkBot/Helpers/FixedWidthTableHelper.cs:36-54 | Afterwards every grid text is the header or the formatted value, and every column size is the column's final width. Each open totals slot holds the sum of its column over all records, and the other slots stay empty. Every formatted total is present exactly when there are records and the column has a slot. |
| FixedWidthTableHelper.FillRow | ArkBot/Helpers/FixedWidthTableHelper.cs:38-53 | Record `i - 1` fills grid row `i` and no other row. Sizes become the running maximum, or the final width after the last record, and totals become the running sums. |
| FixedWidthTableHelper.FillCell | ArkBot/Helpers/FixedWidthTableHelper.cs:41-52 | One cell of a record: its text, its size, its running sum and, after the last record, its formatted total, which also widens the column. All other entries are unchanged. |
| FixedWidthTableHelper.AppendGrid | ArkBot/Helpers/FixedWidthTableHelper.cs:56-72 | The builder holds every grid line, each followed by the new-line string. |
| FixedWidthTableHelper.AppendRow | ArkBot/Helpers/FixedWidthTableHelper.cs:58-70 | Appends grid line `i`: every cell padded to its column size plus spacing, by its column's alignment. |
| FixedWidthTableHelper.AppendTotals | ArkBot/Helpers/FixedWidthTableHelper.cs:74-98 | When some slot is open, the separator, a new line and the totals line are appended, and the trimmed builder is the rendered text. Otherwise the grid alone is trimmed. |
| FixedWidthTableHelper.SeparatorOf | ArkBot/Helpers/FixedWidthTableHelper.cs:76 | The separator is as many dashes as a line is long: the sum of the sizes plus two per column. |
| FixedWidthTableHelper.AppendTotalsLine | ArkBot/Helpers/FixedWidthTableHelper.cs:77-95 | With records, the totals line is blank cells and padded totals. Without records, an open slot is the null-reference error, and it happens exactly then. |
| FixedWidthTableHelper.TotalsCellText | ArkBot/Helpers/FixedWidthTableHelper.cs:79-94 | A column without a slot is spaces of its width plus the spacing, with or without records. A slot without a formatted total fails. Otherwise the cell is the padded total. |
| TableLayout.Table.ContentWidthIsMaximum | ArkBot/Helpers/FixedWidthTableHelper.cs:27-44 | The running column size bounds the header and every record's text seen so far, and equals one of them. |
| TableLayout.Table.WidthIsMaximum | ArkBot/Helpers/FixedWidthTableHelper.cs:27-54 | A column's width is at least its header, each of its cells and its total, and equals one of them. |
| TableLayout.AlignedCell | ArkBot/Helpers/FixedWidthTableHelper.cs:62-68 | A text no longer than the width is padded to exactly the width. Left or unconfigured columns put the text first. Right alignment puts the text last. Centring surrounds it with spaces. |
| TableLayout.Table.GridTextFits | ArkBot/Helpers/FixedWidthTableHelper.cs:27-54 | Every header and cell text fits its column. |
| TableLayout.Table.GridCellLength | ArkBot/Helpers/FixedWidthTableHelper.cs:62-68 | Every padded grid cell is its column's width plus the spacing. |
| TableLayout.Table.TotalsCellLength | ArkBot/Helpers/FixedWidthTableHelper.cs:79-93 | Every cell of the totals line is its column's width plus the spacing. |
| TableLayout.Table.LinesHaveEqualLength | ArkBot/Helpers/FixedWidthTableHelper.cs:56-96 | There are records + 1 lines, plus 2 when some column has a totals slot. Every line, the separator included, has the same length. |
| TableLayout.Table.CellPosition | ArkBot/Helpers/FixedWidthTableHelper.cs:56-72 | Line `i` holds, at column `j`'s start, row `i`'s text for that column, padded by its alignment. |
| TableLayout.Table.HeaderCell | ArkBot/Helpers/FixedWidthTableHelper.cs:29-31 | The header line shows the configured header, or else the property name, at each column's position. |
| TableLayout.Table.TotalsCellPosition | ArkBot/Helpers/FixedWidthTableHelper.cs:74-95 | A totals column shows the formatted sum of all its values. Every other column of the totals line is spaces. |
| TableLayout.Table.BufferIsJoinedLines | ArkBot/Helpers/FixedWidthTableHelper.cs:56-96 | The builder holds the lines joined by the new-line string. Without totals, one more new line follows. |
| TableLayout.Table.RenderedIsTrimmedLines | ArkBot/Helpers/FixedWidthTableHelper.cs:74-98 | Rendering fails exactly with no records and some totals slot. Otherwise it is the joined lines with trailing line breaks trimmed, and never ends in a line break. |
| TableLayout.Table.GridLineEndsInSpace | ArkBot/Helpers/FixedWidthTableHelper.cs:62-69 | A left-aligned last column ends every grid line in a space. |
| TableLayout.Table.TotalsLineEndsInSpace | ArkBot/Helpers/FixedWidthTableHelper.cs:77-95 | A left-aligned last column ends the totals line in a space. |
| TableLayout.Table.LeftAlignedLastColumnKeepsLines | ArkBot/Helpers/FixedWidthTableHelper.cs:98 | With a left-aligned last column, the trim removes only the final line break: the text is exactly the lines joined by the new-line string. |
| Text.PadRight | ArkBot/Helpers/FixedWidthTableHelper.cs:64 | The result is as long as the width, or the text if longer. The text comes first, then spaces. |
| Text.PadLeft | ArkBot/Helpers/FixedWidthTableHelper.cs:65 | The result is as long as the width, or the text if longer. Spaces come first, then the text. |
| Text.PadBoth | ArkBot/Helpers/FixedWidthTableHelper.cs:66 | A text that fits is surrounded by spaces up to the width, with the lead clamped to the spare room. |
| Text.TrimLineBreaks | ArkBot/Helpers/FixedWidthTableHelper.cs:98 | The result is a prefix that does not end in `\r` or `\n`. Everything cut off is `\r` or `\n`. |
| Text.TrimIgnoresTrailingBreaks | ArkBot/Helpers/FixedWidthTableHelper.cs:71-98 | Line breaks appended before the trim make no difference to its result. |
| Text.ConcatColumns | ArkBot/Helpers/FixedWidthTableHelper.cs:69 | Appended cells of their columns' lengths make a line of the summed widths plus spacing. Cell `j` sits at column `j`'s start. |
| TableConfiguration.Configuration.Add | ArkBot/Helpers/FixedWidthTableHelper.cs:134-137 | A name already present is the duplicate-key error and changes nothing. Otherwise the name maps to the given settings, `Get` returns them, and every other name's settings stay. |
| TableConfiguration.Configuration.Get | ArkBot/Helpers/FixedWidthTableHelper.cs:139-142 | The settings of a registered name, and `None` (null) exactly when the name is absent. |
| TableConfiguration.MemberName | ArkBot/Helpers/FixedWidthTableHelper.cs:114 | A name is extracted exactly from a member access directly under a unary node, and it is that member's name. |
| TableConfiguration.Builder.For | ArkBot/Helpers/FixedWidthTableHelper.cs:112-118 | Without an extractable name nothing changes. Otherwise the outcome is that of `Add` for the extracted name. |

## Left out

- Reflection (`TypeDescriptor.GetProperties`, `GetValue`) is not modelled. The model takes the properties in their order and every record's values directly.
- Property values are `int`. Null property values are not modelled; the source's `GetValue(item).ToString()` would throw on them.
- `Nullable<T>` properties and values of other types are not modelled. `ToString()` and `string.Format` are the opaque functions `Externals.toText` and `Externals.formatWith`.
- The body of the `PadBoth` extension method is not part of this model. It is taken to put spaces on both sides of the text. How many go first is the parameter `Externals.centerLead`.
- `Environment.NewLine` is the parameter `Externals.newLine`. The trimming lemmas assume it consists of `\r` and `\n` only.
- FixedWidthTableHelper.ToString: takes the configuration that `configAction` built. It does not model the `Action` callback, the builder's creation or the explicit conversion operator (lines 16-18).
- FixedWidthTableHelper.ToString: requires that a total is asked only of value-type properties. For a reference-type column the source adds to a null `dynamic` slot, and the result depends on the runtime binder.
- TableLayout.Table.ColumnSum: sums are unbounded integers. The source's `dynamic` addition on a 32-bit or 64-bit property type would overflow or wrap, and that is not modelled.
- A total on an empty collection follows the code, not a header-only table with the totals omitted. For left-aligned and right-aligned columns, the source throws a `NullReferenceException` when `PadRight` or `PadLeft` pads the null formatted total (lines 86-90; an unconfigured column never has a totals slot, line 33). The model returns the error `NullTotalText` for it. For a centred totals column the call is the `PadBoth` extension method (line 91), whose body is not part of this model. It is taken to dereference its argument, and so to fail on the null total like `PadRight` and `PadLeft`.
- FixedWidthTableHelper.ToString: takes `string.Format` (`Externals.formatWith`) never to throw. An invalid format (such as `"Q"` on an integer, or one containing `}`) or a failing provider raises a `FormatException` in the source at lines 42 and 49; the model does not capture that failure, and the claim that rendering fails exactly on an empty collection with a totals column holds only for formats `string.Format` accepts.
- TableConfiguration.Builder.For: returns the duplicate-key outcome of `Add`. The source lets the exception escape and otherwise returns the builder itself, for chaining. The chaining is not modelled.
- TableConfiguration.MemberName: only the shape of the selector's expression tree is modelled. Compiling the lambda and deciding which nodes a given lambda has (a `Convert` node exactly for value-type members) is not modelled.
- A Dafny string stands for the source's string, and its length for the string's `Length`. Dafny characters are Unicode scalar values, while `Length`, `PadRight` and `PadLeft` count UTF-16 code units. A header, property name or formatted text with a character outside the Basic Multilingual Plane (an emoji, say) is therefore one unit shorter here per such character. For such text, the widths and padding in the model differ from the source's.
