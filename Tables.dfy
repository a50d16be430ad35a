/** Cells, rows and tables: the part of a pandas DataFrame the tracker relies on.
    A table is an ordered list of column names and a sequence of rows; each row
    maps column names to cells. Row labels (the DataFrame index) are not kept:
    the tracker only ever uses them to find a row again, which positions do. */
module Tables {

  datatype Option<T> = None | Some(value: T) {
    function GetOr(default: T): T {
      match this
      case Some(v) => v
      case None => default
    }
  }

  /** One DataFrame cell: a missing value (None / NaN / NaT), text, or a number. */
  datatype Cell = Missing | Text(s: string) | Num(n: real)

  type Row = map<string, Cell>

  datatype Table = Table(cols: seq<string>, rows: seq<Row>)

  predicate Distinct<T(==)>(s: seq<T>) {
    forall i, j :: 0 <= i < j < |s| ==> s[i] != s[j]
  }

  function Columns(cols: seq<string>): set<string> {
    set c | c in cols
  }

  /** Column names are unique and every row has exactly the table's columns. */
  predicate WellFormed(t: Table) {
    Distinct(t.cols) && forall r | r in t.rows :: r.Keys == Columns(t.cols)
  }

  /** DataFrame.empty: no rows or no columns. */
  predicate IsEmpty(t: Table) {
    |t.rows| == 0 || |t.cols| == 0
  }

  /** The cell of column c, or Missing when the row has no such column. */
  function Get(r: Row, c: string): Cell {
    if c in r then r[c] else Missing
  }

  function IdOf(r: Row): Cell {
    Get(r, "id")
  }

  /** The parsing rules of pd.to_numeric and pd.to_datetime, left abstract:
      a partial parser for numbers written as text, and one for dates (any
      totally ordered encoding, such as a day count). */
  datatype Parsers = Parsers(number: string -> Option<real>, date: Cell -> Option<int>)

  /** pd.to_numeric(..., errors="coerce") on one cell: numbers stay, blank and
      missing cells give NaN (None), other text is parsed. */
  function NumberOf(x: Cell, p: Parsers): (v: Option<real>)
    ensures x.Num? ==> v == Some(x.n)
    ensures x.Missing? || x == Text("") ==> v.None?
  {
    match x
    case Missing => None
    case Num(n) => Some(n)
    case Text(s) => if s == "" then None else p.number(s)
  }

  /** pd.to_datetime(..., errors="coerce") on one cell: missing and blank cells give NaT. */
  function DateOf(x: Cell, p: Parsers): (d: Option<int>)
    ensures x.Missing? || x == Text("") ==> d.None?
  {
    if x.Missing? || x == Text("") then None else p.date(x)
  }

  /** The rows of s that keep selects, in their original order (a boolean mask). */
  function Filter<T(!new)>(s: seq<T>, keep: T -> bool): (r: seq<T>)
    ensures |r| <= |s|
    ensures forall x :: x in r <==> x in s && keep(x)
  {
    if s == [] then []
    else if keep(s[0]) then [s[0]] + Filter(s[1..], keep)
    else Filter(s[1..], keep)
  }

  /** Filtering distributes over concatenation: the order of the survivors is
      the order they had in the input. */
  lemma {:induction false} FilterAppend<T(!new)>(a: seq<T>, b: seq<T>, keep: T -> bool)
    ensures Filter(a + b, keep) == Filter(a, keep) + Filter(b, keep)
  {
    if a == [] {
      assert a + b == b;
    } else {
      assert (a + b)[0] == a[0];
      assert (a + b)[1..] == a[1..] + b;
      FilterAppend(a[1..], b, keep);
    }
  }

  /** A filter that keeps everything returns its input. */
  lemma {:induction false} FilterAll<T(!new)>(s: seq<T>, keep: T -> bool)
    requires forall x :: x in s ==> keep(x)
    ensures Filter(s, keep) == s
  {
    if s != [] {
      assert forall x :: x in s[1..] ==> x in s;
      FilterAll(s[1..], keep);
    }
  }

  /** df[mask]: the same columns, the rows that keep selects. */
  function Where(t: Table, keep: Row -> bool): (r: Table)
    ensures r.cols == t.cols
    ensures WellFormed(t) ==> WellFormed(r)
    ensures forall x :: x in r.rows <==> x in t.rows && keep(x)
  {
    Table(t.cols, Filter(t.rows, keep))
  }

  /** pd.concat([t, pd.DataFrame([row])], ignore_index=True); the result is
      well formed when the row has exactly the table's columns. */
  function Append(t: Table, row: Row): (r: Table)
    ensures WellFormed(t) && row.Keys == Columns(t.cols) ==> WellFormed(r)
    ensures r.cols == t.cols && |r.rows| == |t.rows| + 1
    ensures r.rows[..|t.rows|] == t.rows && r.rows[|t.rows|] == row
  {
    Table(t.cols, t.rows + [row])
  }

  /** df[cols]: keep exactly the columns cols, in that order. */
  function Project(t: Table, cols: seq<string>): (r: Table)
    requires WellFormed(t) && Distinct(cols) && forall c | c in cols :: c in t.cols
    ensures WellFormed(r) && r.cols == cols && |r.rows| == |t.rows|
    ensures forall i, c :: 0 <= i < |t.rows| && c in cols ==> r.rows[i][c] == t.rows[i][c]
  {
    Table(cols, seq(|t.rows|, i requires 0 <= i < |t.rows| => map c | c in cols :: t.rows[i][c]))
  }

  /** Projecting a table to its own columns gives it back. */
  lemma ProjectSame(t: Table)
    requires WellFormed(t)
    ensures Project(t, t.cols) == t
  {
    var r := Project(t, t.cols);
    forall i | 0 <= i < |t.rows| ensures r.rows[i] == t.rows[i] {
      assert t.rows[i] in t.rows;
      assert r.rows[i].Keys == t.rows[i].Keys;
    }
  }
}
