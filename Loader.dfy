/** The store loader (carregar_csv_seguro): what a read of a store's file gives,
    and how a parsed table is reconciled with the store's contract. */
module Loader {
  import opened Tables
  import opened Schema

  /** The outcome of reading a store's file: no file, a read that raised, or
      the table pd.read_csv produced. */
  datatype ReadResult = Absent | Unreadable | Parsed(frame: Table)

  /** df.fillna(""): a missing cell becomes the empty string. */
  function Filled(x: Cell): (y: Cell)
    ensures !y.Missing?
    ensures !x.Missing? ==> y == x
  {
    if x.Missing? then Text("") else x
  }

  /** The cell a loaded table holds in column c, given the parsed cell x (or
      Missing when the file had no column c). */
  function LoadedCell(c: string, x: Cell, p: Parsers): (y: Cell)
    ensures !y.Missing?
    ensures c in NumericColumns ==> y.Num? && (x.Num? ==> y == x)
    ensures c in NumericColumns && (x.Missing? || x == Text("")) ==> y == Num(0.0)
    ensures c !in NumericColumns && !x.Missing? ==> y == x
  {
    if c in NumericColumns then Num(NumberOf(Filled(x), p).GetOr(0.0)) else Filled(x)
  }

  /** The table reconciled with the columns cols: exactly those columns in that
      order, the same rows in the same order, no missing cell, and in the
      numeric columns the parsed number or 0. */
  function Reconciled(cols: seq<string>, t: Table, p: Parsers): (r: Table)
    requires Distinct(cols)
    ensures WellFormed(r) && r.cols == cols && |r.rows| == |t.rows|
    ensures forall i, c :: 0 <= i < |r.rows| && c in cols ==> c in r.rows[i] && !r.rows[i][c].Missing?
    ensures forall i, c :: 0 <= i < |r.rows| && c in cols && c in NumericColumns ==>
      r.rows[i][c] == match NumberOf(Get(t.rows[i], c), p) case Some(v) => Num(v) case None => Num(0.0)
    ensures forall i, c :: 0 <= i < |r.rows| && c in cols && c !in NumericColumns ==>
      r.rows[i][c] == if Get(t.rows[i], c).Missing? then Text("") else Get(t.rows[i], c)
  {
    Table(cols, seq(|t.rows|, i requires 0 <= i < |t.rows| =>
      map c | c in cols :: LoadedCell(c, Get(t.rows[i], c), p)))
  }

  /** df[col] = None for a column the table lacks. */
  function AddColumn(t: Table, c: string): (r: Table)
    requires WellFormed(t) && c !in t.cols
    ensures WellFormed(r) && r.cols == t.cols + [c] && |r.rows| == |t.rows|
    ensures forall i :: 0 <= i < |t.rows| ==> r.rows[i] == t.rows[i][c := Missing]
  {
    var r := Table(t.cols + [c], seq(|t.rows|, i requires 0 <= i < |t.rows| => t.rows[i][c := Missing]));
    assert Columns(r.cols) == Columns(t.cols) + {c};
    assert forall x | x in r.rows :: exists i :: 0 <= i < |t.rows| && x == t.rows[i][c := Missing];
    r
  }

  /** df.fillna(""). */
  function FillNa(t: Table): (r: Table)
    requires WellFormed(t)
    ensures WellFormed(r) && r.cols == t.cols && |r.rows| == |t.rows|
    ensures forall i, c :: 0 <= i < |t.rows| && c in t.cols ==> r.rows[i][c] == Filled(t.rows[i][c])
  {
    Table(t.cols, seq(|t.rows|, i requires 0 <= i < |t.rows| => map c | c in t.cols :: Filled(t.rows[i][c])))
  }

  /** df[c] = pd.to_numeric(df[c], errors="coerce").fillna(0). */
  function Coerce(t: Table, c: string, p: Parsers): (r: Table)
    requires WellFormed(t) && c in t.cols
    ensures WellFormed(r) && r.cols == t.cols && |r.rows| == |t.rows|
    ensures forall i :: 0 <= i < |t.rows| ==> r.rows[i] == t.rows[i][c := Num(NumberOf(t.rows[i][c], p).GetOr(0.0))]
  {
    var r := Table(t.cols, seq(|t.rows|, i requires 0 <= i < |t.rows| =>
      t.rows[i][c := Num(NumberOf(t.rows[i][c], p).GetOr(0.0))]));
    assert forall x | x in r.rows :: exists i :: 0 <= i < |t.rows| && x == t.rows[i][c := Num(NumberOf(t.rows[i][c], p).GetOr(0.0))];
    r
  }

  /** The columns of cols that a table with the columns have lacks, in the
      order of cols, each once: the columns the loop below appends. */
  function Lacking(cols: seq<string>, have: seq<string>): (m: seq<string>)
    ensures forall c | c in m :: c in cols && c !in have
    ensures forall c | c in cols :: c in have || c in m
    ensures Distinct(have) ==> Distinct(have + m)
  {
    if cols == [] then []
    else
      var n := |cols| - 1;
      var m := Lacking(cols[..n], have);
      assert forall c | c in cols :: c in cols[..n] || c == cols[n];
      if cols[n] in have + m then m
      else
        assert forall i | 0 <= i < |have + m| :: (have + m)[i] != cols[n];
        assert have + (m + [cols[n]]) == (have + m) + [cols[n]];
        m + [cols[n]]
  }

  /** The loop of carregar_csv_seguro that gives the table each contract
      column it lacks, filled with None: the table's own columns stay in
      place and exactly the missing ones are appended. */
  method AddMissingColumns(cols: seq<string>, t: Table) returns (r: Table)
    requires WellFormed(t)
    ensures WellFormed(r) && |r.rows| == |t.rows|
    ensures r.cols == t.cols + Lacking(cols, t.cols)
    ensures forall i, c :: 0 <= i < |r.rows| && c in r.rows[i] ==> r.rows[i][c] == Get(t.rows[i], c)
    ensures forall i, c :: 0 <= i < |r.rows| && c in t.rows[i] ==> c in r.rows[i]
  {
    r := t;
    for k := 0 to |cols|
      invariant WellFormed(r) && |r.rows| == |t.rows|
      invariant r.cols == t.cols + Lacking(cols[..k], t.cols)
      invariant forall i, c :: 0 <= i < |r.rows| && c in r.rows[i] ==> r.rows[i][c] == Get(t.rows[i], c)
      invariant forall i, c :: 0 <= i < |r.rows| && c in t.rows[i] ==> c in r.rows[i]
    {
      assert cols[..k + 1][..k] == cols[..k];
      if cols[k] !in r.cols {
        forall i | 0 <= i < |r.rows| ensures cols[k] !in r.rows[i] {
          assert r.rows[i] in r.rows;
        }
        r := AddColumn(r, cols[k]);
      }
    }
    assert cols[..|cols|] == cols;
  }

  /** The loop of carregar_csv_seguro that coerces each listed column the
      table has (the numeric columns): a parsable cell becomes its number,
      any other cell 0, and the other columns are unchanged. */
  method CoerceColumns(t: Table, cols: seq<string>, p: Parsers) returns (r: Table)
    requires WellFormed(t)
    ensures WellFormed(r) && r.cols == t.cols && |r.rows| == |t.rows|
    ensures forall i, c :: 0 <= i < |r.rows| && c in t.cols ==>
      r.rows[i][c] == if c in cols then Num(NumberOf(t.rows[i][c], p).GetOr(0.0)) else t.rows[i][c]
  {
    r := t;
    for k := 0 to |cols|
      invariant WellFormed(r) && r.cols == t.cols && |r.rows| == |t.rows|
      invariant forall i, c :: 0 <= i < |r.rows| && c in t.cols ==>
        r.rows[i][c] == if c in cols[..k] then Num(NumberOf(t.rows[i][c], p).GetOr(0.0)) else t.rows[i][c]
    {
      assert cols[..k + 1] == cols[..k] + [cols[k]];
      if cols[k] in r.cols {
        r := Coerce(r, cols[k], p);
      }
    }
    assert cols[..|cols|] == cols;
  }

  /** The body of the try block after read_csv: add each missing contract
      column, project to the contract, fill missing cells, then coerce the
      numeric columns the contract has. */
  method Reconcile(cols: seq<string>, t: Table, p: Parsers) returns (r: Table)
    requires WellFormed(t) && Distinct(cols)
    ensures r == Reconciled(cols, t, p)
  {
    var added := AddMissingColumns(cols, t);
    forall i, c | 0 <= i < |added.rows| && c in cols ensures c in added.rows[i] {
      assert added.rows[i] in added.rows;
    }
    var projected := Project(added, cols);
    var filled := FillNa(projected);
    r := CoerceColumns(filled, NumericColumns, p);
    ghost var want := Reconciled(cols, t, p);
    forall i | 0 <= i < |r.rows| ensures r.rows[i] == want.rows[i] {
      assert r.rows[i] in r.rows;
      forall c | c in cols ensures r.rows[i][c] == want.rows[i][c] {
        assert projected.rows[i][c] == Get(t.rows[i], c);
      }
      assert r.rows[i].Keys == want.rows[i].Keys;
    }
  }

  /** The table carregar_csv_seguro returns. A missing file, an unreadable one,
      and a parsed table without columns all give an empty table with exactly
      the contract's columns; otherwise the parsed rows, reconciled. */
  function Loaded(s: Store, read: ReadResult, p: Parsers): (r: Table)
    requires read.Parsed? ==> WellFormed(read.frame)
    ensures Conforms(r, s)
    ensures read.Parsed? && read.frame.cols != [] ==> |r.rows| == |read.frame.rows|
    ensures read.Absent? || read.Unreadable? || (read.Parsed? && read.frame.cols == []) ==>
      r == Table(Contract(s), [])
  {
    match read
    case Absent => Table(Contract(s), [])
    case Unreadable => Table(Contract(s), [])
    case Parsed(t) =>
      var t' := if IsEmpty(t) && |t.cols| == 0 then Table(Contract(s), []) else t;
      Reconciled(Contract(s), t', p)
  }

  /** carregar_csv_seguro: the loaded table, and the header-only table written
      to the file when it was missing or could not be read. */
  method Load(s: Store, read: ReadResult, p: Parsers) returns (t: Table, written: Option<Table>)
    requires read.Parsed? ==> WellFormed(read.frame)
    ensures t == Loaded(s, read, p)
    ensures written == if read.Parsed? then None else Some(Table(Contract(s), []))
  {
    var cols := Contract(s);
    if read.Absent? {
      t := Table(cols, []);
      written := Some(t);
      return;
    }
    if read.Unreadable? {
      t := Table(cols, []);
      written := Some(t);
      return;
    }
    t := read.frame;
    written := None;
    if IsEmpty(t) && |t.cols| == 0 {
      t := Table(cols, []);
    }
    t := Reconcile(cols, t, p);
  }

  /** A row with the columns cols, no missing cell and numbers in the numeric
      columns is its own loaded row. */
  lemma LoadedRowConforming(row: Row, cols: seq<string>, p: Parsers)
    requires row.Keys == Columns(cols)
    requires forall c | c in row :: !row[c].Missing? && (c in NumericColumns ==> row[c].Num?)
    ensures (map c | c in cols :: LoadedCell(c, Get(row, c), p)) == row
  {
    var m := map c | c in cols :: LoadedCell(c, Get(row, c), p);
    forall c | c in cols ensures m[c] == row[c] {
      assert c in row;
    }
    assert m.Keys == row.Keys;
  }

  /** Loading a table that already conforms to its contract gives it back:
      reconciliation is idempotent. */
  lemma ReconcileConforming(s: Store, t: Table, p: Parsers)
    requires Conforms(t, s)
    ensures Reconciled(Contract(s), t, p) == t
  {
    ColumnsOfContract(s);
    var r := Reconciled(Contract(s), t, p);
    forall i | 0 <= i < |t.rows| ensures r.rows[i] == t.rows[i] {
      assert t.rows[i] in t.rows;
      LoadedRowConforming(t.rows[i], Contract(s), p);
    }
  }

  /** Loading what was just loaded changes nothing. */
  lemma LoadTwice(s: Store, read: ReadResult, p: Parsers)
    requires read.Parsed? ==> WellFormed(read.frame)
    ensures Loaded(s, Parsed(Loaded(s, read, p)), p) == Loaded(s, read, p)
  {
    ReconcileConforming(s, Loaded(s, read, p), p);
  }
}
