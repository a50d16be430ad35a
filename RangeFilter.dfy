/** The date-range filter (aplicar_filtro). The session's start and end dates
    are explicit parameters instead of session state. */
module RangeFilter {
  import opened Tables

  /** (datas >= inicio) & (datas <= fim) for one row: a date that does not
      parse compares false on both sides. */
  predicate InRange(row: Row, col: string, inicio: int, fim: int, p: Parsers): (r: bool)
    ensures r ==> DateOf(Get(row, col), p).Some?
    ensures Get(row, col).Missing? || Get(row, col) == Text("") ==> !r
    ensures fim < inicio ==> !r
  {
    match DateOf(Get(row, col), p)
    case Some(d) => inicio <= d <= fim
    case None => false
  }

  /** aplicar_filtro: the table unchanged when it is empty or lacks the date
      column; otherwise exactly the rows whose date parses and lies in
      [inicio, fim], both ends included, in their original order. */
  function AplicarFiltro(t: Table, col: string, inicio: int, fim: int, p: Parsers): (r: Table)
    ensures IsEmpty(t) || col !in t.cols ==> r == t
    ensures r.cols == t.cols && |r.rows| <= |t.rows|
    ensures WellFormed(t) ==> WellFormed(r)
    ensures !IsEmpty(t) && col in t.cols ==>
      forall x :: x in r.rows <==> x in t.rows && InRange(x, col, inicio, fim, p)
  {
    if IsEmpty(t) || col !in t.cols then t
    else Where(t, (x: Row) => InRange(x, col, inicio, fim, p))
  }

  /** The filter keeps order: filtering the rows a + b gives the filtered a
      followed by the filtered b. */
  lemma FilterKeepsOrder(cols: seq<string>, a: seq<Row>, b: seq<Row>, col: string, inicio: int, fim: int, p: Parsers)
    ensures AplicarFiltro(Table(cols, a + b), col, inicio, fim, p).rows
         == AplicarFiltro(Table(cols, a), col, inicio, fim, p).rows + AplicarFiltro(Table(cols, b), col, inicio, fim, p).rows
  {
    var keep := (x: Row) => InRange(x, col, inicio, fim, p);
    if cols != [] && col in cols {
      FilterAppend(a, b, keep);
      if a == [] { assert a + b == b; }
      if b == [] { assert a + b == a; }
    }
  }

  /** Rows dated 2024-01-01, 2024-01-15 and 2024-02-01 filtered to
      [2024-01-01, 2024-01-31] (dates as yyyymmdd numbers): the first two
      remain, the start date included. */
  lemma InclusiveRangeExample(p: Parsers)
    requires p.date(Text("2024-01-01")) == Some(20240101)
    requires p.date(Text("2024-01-15")) == Some(20240115)
    requires p.date(Text("2024-02-01")) == Some(20240201)
    ensures AplicarFiltro(Table(["data"], [map["data" := Text("2024-01-01")], map["data" := Text("2024-01-15")], map["data" := Text("2024-02-01")]]),
                          "data", 20240101, 20240131, p).rows
         == [map["data" := Text("2024-01-01")], map["data" := Text("2024-01-15")]]
  {
    var a, b, c := map["data" := Text("2024-01-01")], map["data" := Text("2024-01-15")], map["data" := Text("2024-02-01")];
    var keep := (x: Row) => InRange(x, "data", 20240101, 20240131, p);
    assert keep(a) && keep(b) && !keep(c);
    assert [a, b, c][1..] == [b, c] && [b, c][1..] == [c] && [c][1..] == [];
    assert Filter([c], keep) == [];
    assert Filter([b, c], keep) == [b];
    assert Filter([a, b, c], keep) == [a, b];
  }
}
