/** `QueryContentProvider.getContentIds`: the projection of one column of a
    cursor into a list. The two content libraries differ only in the name
    of the column. */
module QueryProvider {
  import opened Wrappers

  /** The content app library's column. */
  const AvailableUnitIdsColumn: string := "availableUnitIds"
  /** The content app lib's column. */
  const ContentIdColumn: string := "contentId"

  /** A cell as `Cursor.getString` returns it: SQL NULL reads as null. */
  type Cell = Option<string>

  /** A cursor's column names and its rows, each row one cell per column. */
  datatype RawCursor = RawCursor(columns: seq<string>, rows: seq<seq<Cell>>)

  predicate WellFormed(c: RawCursor) {
    forall r :: 0 <= r < |c.rows| ==> |c.rows[r]| == |c.columns|
  }

  type Cursor = c: RawCursor | WellFormed(c) witness RawCursor([], [])

  /** `getColumnIndex(name)`: the index of the first column with that name,
      or -1 when there is none. */
  function ColumnIndex(columns: seq<string>, name: string): (i: int)
    ensures -1 <= i < |columns|
    ensures i == -1 <==> name !in columns
    ensures i >= 0 ==> columns[i] == name && name !in columns[..i]
  {
    if |columns| == 0 then -1
    else if columns[0] == name then 0
    else
      var rest := ColumnIndex(columns[1..], name);
      if rest == -1 then -1
      else
        assert columns[..rest + 1] == [columns[0]] + columns[1..][..rest];
        rest + 1
  }

  /** The reference definition: the column's cell from every row, in row
      order, or nothing when the column is missing. */
  function ColumnValues(c: Cursor, name: string): seq<Cell> {
    var i := ColumnIndex(c.columns, name);
    if i == -1 then [] else seq(|c.rows|, r requires 0 <= r < |c.rows| => c.rows[r][i])
  }

  /** `getContentIds(cursor)` with the column as a parameter: the
      `moveToFirst`/`do … while (moveToNext())` walk over the rows. */
  method GetColumn(c: Cursor, name: string) returns (ids: seq<Cell>)
    ensures name !in c.columns ==> ids == []
    ensures name in c.columns ==> |ids| == |c.rows|
    ensures name in c.columns ==>
              forall r :: 0 <= r < |ids| ==> ids[r] == c.rows[r][ColumnIndex(c.columns, name)]
    ensures ids == ColumnValues(c, name)
  {
    var columnIndex := ColumnIndex(c.columns, name);
    if columnIndex == -1 {
      return [];
    }
    if |c.rows| == 0 {
      return [];
    }
    var position := 0;
    ids := [c.rows[position][columnIndex]];
    while position + 1 < |c.rows|
      invariant 0 <= position < |c.rows|
      invariant |ids| == position + 1
      invariant forall r :: 0 <= r < |ids| ==> ids[r] == c.rows[r][columnIndex]
    {
      position := position + 1;
      ids := ids + [c.rows[position][columnIndex]];
    }
  }

  /** The content app library's `getContentIds`. */
  method GetAvailableUnitIds(c: Cursor) returns (ids: seq<Cell>)
    ensures AvailableUnitIdsColumn !in c.columns ==> ids == []
    ensures AvailableUnitIdsColumn in c.columns ==> |ids| == |c.rows|
    ensures ids == ColumnValues(c, AvailableUnitIdsColumn)
  {
    ids := GetColumn(c, AvailableUnitIdsColumn);
  }

  /** The content app lib's `getContentIds`. */
  method GetContentIds(c: Cursor) returns (ids: seq<Cell>)
    ensures ContentIdColumn !in c.columns ==> ids == []
    ensures ContentIdColumn in c.columns ==> |ids| == |c.rows|
    ensures ids == ColumnValues(c, ContentIdColumn)
  {
    ids := GetColumn(c, ContentIdColumn);
  }

  /** A cursor without rows gives the empty list, column or not. */
  lemma NoRowsNoIds(c: Cursor, name: string)
    requires |c.rows| == 0
    ensures ColumnValues(c, name) == []
  {
  }
}
