/** The table the processor enriches: a set of column names and a sequence
    of sparse rows, updated in place by column and cell writes, as the
    processor does with a pandas data frame. */
module Frame {
  import opened Json

  class DataFrame {
    var columns: set<string>
    var rows: seq<Row>

    /** Every cell of every row sits in a known column. */
    ghost predicate Valid()
      reads this
    {
      forall i :: 0 <= i < |rows| ==> rows[i].Keys <= columns
    }

    constructor (columns: set<string>, rows: seq<Row>)
      requires forall i :: 0 <= i < |rows| ==> rows[i].Keys <= columns
      ensures Valid()
      ensures this.columns == columns && this.rows == rows
    {
      this.columns := columns;
      this.rows := rows;
    }

    /** `df.copy()`: a new table with the same columns and rows. */
    constructor Copy(other: DataFrame)
      requires other.Valid()
      ensures Valid()
      ensures columns == other.columns && rows == other.rows
    {
      columns := other.columns;
      rows := other.rows;
    }

    /** `df[key] = value`: every row gets `value` in column `key`. */
    method SetColumn(key: string, value: string)
      requires Valid()
      modifies this
      ensures Valid()
      ensures columns == old(columns) + {key}
      ensures |rows| == |old(rows)|
      ensures forall i :: 0 <= i < |rows| ==> rows[i] == old(rows)[i][key := value]
    {
      rows := seq(|rows|, i requires 0 <= i < |rows| reads this => rows[i][key := value]);
      columns := columns + {key};
    }

    /** `df.loc[index, key] = value`: one cell written, the column created
        when new; every other row keeps its cells. */
    method SetCell(index: nat, key: string, value: string)
      requires Valid() && index < |rows|
      modifies this
      ensures Valid()
      ensures columns == old(columns) + {key}
      ensures rows == old(rows)[index := old(rows)[index][key := value]]
    {
      rows := rows[index := rows[index][key := value]];
      columns := columns + {key};
    }
  }

  /** A row as the CSV writer emits it under `columns` (`to_csv` of one
      row): one cell per column, the row's value where it has one and
      empty where it has none (a missing cell is written as nothing). */
  function CsvLine(columns: set<string>, cells: Row): (r: map<string, string>)
    ensures r.Keys == columns
    ensures forall c :: c in columns && c in cells ==> r[c] == cells[c]
    ensures forall c :: c in columns && c !in cells ==> r[c] == ""
  {
    map c | c in columns :: if c in cells then cells[c] else ""
  }
}
