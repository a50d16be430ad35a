/** The two column aggregates, somar_coluna and media_coluna, which treat an
    unparsable cell differently: the sum counts it as 0, the mean drops it. */
module Aggregator {
  import opened Tables

  function Total(xs: seq<real>): real {
    if xs == [] then 0.0 else xs[0] + Total(xs[1..])
  }

  /** pd.to_numeric(col, errors="coerce").fillna(0), summed. */
  function CoercedSum(rows: seq<Row>, c: string, p: Parsers): real {
    if rows == [] then 0.0 else NumberOf(Get(rows[0], c), p).GetOr(0.0) + CoercedSum(rows[1..], c, p)
  }

  /** pd.to_numeric(col, errors="coerce").dropna(): the parsable cells, in order. */
  function ParsedValues(rows: seq<Row>, c: string, p: Parsers): (vs: seq<real>)
    ensures |vs| <= |rows|
  {
    if rows == [] then []
    else match NumberOf(Get(rows[0], c), p)
      case Some(v) => [v] + ParsedValues(rows[1..], c, p)
      case None => ParsedValues(rows[1..], c, p)
  }

  /** Counting unparsable cells as 0 gives the sum of the parsable ones. */
  lemma {:induction false} CoercedSumIsParsedTotal(rows: seq<Row>, c: string, p: Parsers)
    ensures CoercedSum(rows, c, p) == Total(ParsedValues(rows, c, p))
  {
    if rows != [] {
      CoercedSumIsParsedTotal(rows[1..], c, p);
      match NumberOf(Get(rows[0], c), p)
      case Some(v) =>
        assert ([v] + ParsedValues(rows[1..], c, p))[1..] == ParsedValues(rows[1..], c, p);
      case None =>
    }
  }

  /** fillna(0) on a column where nothing parses sums to 0, and dropna()
      leaves nothing. */
  lemma {:induction false} NothingParses(rows: seq<Row>, c: string, p: Parsers)
    requires forall i :: 0 <= i < |rows| ==> NumberOf(Get(rows[i], c), p).None?
    ensures CoercedSum(rows, c, p) == 0.0 && ParsedValues(rows, c, p) == []
  {
    if rows != [] {
      assert forall i :: 1 <= i < |rows| ==> rows[1..][i - 1] == rows[i];
      NothingParses(rows[1..], c, p);
    }
  }

  /** dropna() on a column where every cell parses drops nothing. */
  lemma {:induction false} EverythingParses(rows: seq<Row>, c: string, p: Parsers)
    requires forall i :: 0 <= i < |rows| ==> NumberOf(Get(rows[i], c), p).Some?
    ensures |ParsedValues(rows, c, p)| == |rows|
  {
    if rows != [] {
      assert forall i :: 1 <= i < |rows| ==> rows[1..][i - 1] == rows[i];
      EverythingParses(rows[1..], c, p);
    }
  }

  lemma {:induction false} CoercedSumAppend(a: seq<Row>, b: seq<Row>, c: string, p: Parsers)
    ensures CoercedSum(a + b, c, p) == CoercedSum(a, c, p) + CoercedSum(b, c, p)
  {
    if a == [] {
      assert a + b == b;
    } else {
      assert (a + b)[0] == a[0];
      assert (a + b)[1..] == a[1..] + b;
      CoercedSumAppend(a[1..], b, c, p);
    }
  }

  /** somar_coluna: 0 for an empty table or an absent column, otherwise the
      sum of the column's parsable cells (an unparsable cell counts as 0). */
  function Somar(t: Table, c: string, p: Parsers): (r: real)
    ensures IsEmpty(t) || c !in t.cols ==> r == 0.0
    ensures !IsEmpty(t) && c in t.cols ==> r == Total(ParsedValues(t.rows, c, p))
  {
    CoercedSumIsParsedTotal(t.rows, c, p);
    if IsEmpty(t) || c !in t.cols then 0.0 else CoercedSum(t.rows, c, p)
  }

  /** media_coluna: 0 for an empty table, an absent column or a column with
      no parsable cell; otherwise the mean of the parsable cells only, so the
      mean times their count is the column's sum. */
  function Media(t: Table, c: string, p: Parsers): (r: real)
    ensures IsEmpty(t) || c !in t.cols || |ParsedValues(t.rows, c, p)| == 0 ==> r == 0.0
    ensures !IsEmpty(t) && c in t.cols && |ParsedValues(t.rows, c, p)| > 0 ==>
      r * (|ParsedValues(t.rows, c, p)| as real) == Somar(t, c, p)
  {
    if IsEmpty(t) || c !in t.cols then 0.0
    else
      var vs := ParsedValues(t.rows, c, p);
      if |vs| == 0 then 0.0 else Total(vs) / (|vs| as real)
  }

  /** A column [10, "x", 20] whose "x" does not parse: the sum is 30 (the "x"
      counts as 0) and the mean is 15 (the "x" is left out). */
  lemma SumAndMeanOfUnparsableCell(p: Parsers)
    requires p.number("x") == None
    ensures Somar(Table(["valor"], [map["valor" := Num(10.0)], map["valor" := Text("x")], map["valor" := Num(20.0)]]), "valor", p) == 30.0
    ensures Media(Table(["valor"], [map["valor" := Num(10.0)], map["valor" := Text("x")], map["valor" := Num(20.0)]]), "valor", p) == 15.0
  {
    var rows := [map["valor" := Num(10.0)], map["valor" := Text("x")], map["valor" := Num(20.0)]];
    var last := rows[1..][1..];
    assert last == [map["valor" := Num(20.0)]] && last[1..] == [];
    assert NumberOf(Get(rows[1], "valor"), p) == None;
    assert ParsedValues(last, "valor", p) == [20.0];
    assert ParsedValues(rows[1..], "valor", p) == [20.0];
    assert ParsedValues(rows, "valor", p) == [10.0, 20.0];
    assert Total([20.0]) == 20.0;
  }
}
