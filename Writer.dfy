/** The store writer (salvar_csv_seguro) and row deletion (excluir_linha_seguro). */
module Writer {
  import opened Tables
  import opened Schema

  function IdSet(rows: seq<Row>): set<Cell> {
    set r | r in rows :: IdOf(r)
  }

  predicate DistinctIds(rows: seq<Row>) {
    forall i, j :: 0 <= i < j < |rows| ==> IdOf(rows[i]) != IdOf(rows[j])
  }

  /** Row i is the first row that carries its id. */
  predicate FirstWithId(rows: seq<Row>, i: int)
    requires 0 <= i < |rows|
  {
    forall j :: 0 <= j < i ==> IdOf(rows[j]) != IdOf(rows[i])
  }

  lemma IdSetSnoc(rows: seq<Row>, x: Row)
    ensures IdSet(rows + [x]) == IdSet(rows) + {IdOf(x)}
  {
    assert forall r :: r in rows + [x] <==> r in rows || r == x;
  }

  /** drop_duplicates(subset="id", keep="first"): a row survives when no
      earlier row has its id. The ids that survive are all the ids of the
      input, each once, and only input rows survive. */
  function DedupById(rows: seq<Row>): (r: seq<Row>)
    ensures |r| <= |rows|
    ensures forall x :: x in r ==> x in rows
    ensures IdSet(r) == IdSet(rows)
    ensures DistinctIds(r)
    decreases |rows|
  {
    if rows == [] then []
    else
      var n := |rows| - 1;
      assert rows == rows[..n] + [rows[n]];
      IdSetSnoc(rows[..n], rows[n]);
      var kept := DedupById(rows[..n]);
      if IdOf(rows[n]) in IdSet(rows[..n]) then kept
      else
        IdSetSnoc(kept, rows[n]);
        assert forall i :: 0 <= i < |kept| ==> IdOf(kept[i]) in IdSet(kept) by {
          forall i | 0 <= i < |kept| ensures IdOf(kept[i]) in IdSet(kept) {
            assert kept[i] in kept;
          }
        }
        kept + [rows[n]]
  }

  /** A row is kept exactly when it is the first row of the input with its id. */
  lemma {:induction false} DedupKeepsFirst(rows: seq<Row>, x: Row)
    ensures x in DedupById(rows) <==> exists i :: 0 <= i < |rows| && rows[i] == x && FirstWithId(rows, i)
    decreases |rows|
  {
    if rows != [] {
      var n := |rows| - 1;
      var init := rows[..n];
      assert rows == init + [rows[n]];
      DedupKeepsFirst(init, x);
      assert forall i :: 0 <= i < n ==> (FirstWithId(rows, i) <==> FirstWithId(init, i));
      if exists i :: 0 <= i < |rows| && rows[i] == x && FirstWithId(rows, i) {
        var i :| 0 <= i < |rows| && rows[i] == x && FirstWithId(rows, i);
      }
      if IdOf(rows[n]) !in IdSet(init) {
        assert FirstWithId(rows, n) by {
          forall j | 0 <= j < n ensures IdOf(rows[j]) != IdOf(rows[n]) {
            assert rows[j] in init;
          }
        }
      } else if x == rows[n] && x !in DedupById(init) {
        var r :| r in init && IdOf(r) == IdOf(rows[n]);
        var j :| 0 <= j < n && init[j] == r;
        assert !FirstWithId(rows, n);
      }
    }
  }

  /** Deduplicating a prefix gives a prefix of the result: survivors keep
      their relative order. */
  lemma {:induction false} DedupPrefix(rows: seq<Row>, k: nat)
    requires k <= |rows|
    ensures DedupById(rows[..k]) <= DedupById(rows)
    decreases |rows| - k
  {
    if k < |rows| {
      var n := |rows| - 1;
      assert rows[..n][..k] == rows[..k];
      DedupPrefix(rows[..n], k);
    } else {
      assert rows[..k] == rows;
    }
  }

  /** Rows whose ids are already distinct pass through unchanged. */
  lemma {:induction false} DedupDistinct(rows: seq<Row>)
    requires DistinctIds(rows)
    ensures DedupById(rows) == rows
    decreases |rows|
  {
    if rows != [] {
      var n := |rows| - 1;
      assert rows == rows[..n] + [rows[n]];
      DedupDistinct(rows[..n]);
    }
  }

  /** Deduplicating twice is deduplicating once. */
  lemma DedupIdempotent(rows: seq<Row>)
    ensures DedupById(DedupById(rows)) == DedupById(rows)
  {
    DedupDistinct(DedupById(rows));
  }

  predicate HasColumns(t: Table, cols: seq<string>) {
    forall c | c in cols :: c in t.cols
  }

  /** The table salvar_csv_seguro writes, or None where it raises KeyError
      (a non-empty table that lacks a contract column). df is None stands for
      a missing table. */
  function Salvar(df: Option<Table>, s: Store): (r: Option<Table>)
    requires df.Some? ==> WellFormed(df.value)
    ensures df.None? || IsEmpty(df.value) ==> r == Some(Table(Contract(s), []))
    ensures r.None? <==> df.Some? && !IsEmpty(df.value) && !HasColumns(df.value, Contract(s))
    ensures r.Some? ==> WellFormed(r.value) && r.value.cols == Contract(s) && DistinctIds(r.value.rows)
    ensures r.Some? && df.Some? ==> |r.value.rows| <= |df.value.rows|
  {
    if df.None? || IsEmpty(df.value) then Some(Table(Contract(s), []))
    else if !HasColumns(df.value, Contract(s)) then None
    else
      var t := Project(df.value, Contract(s));
      var t' := if "id" in t.cols then Table(t.cols, DedupById(t.rows)) else t;
      Some(t')
  }

  /** Projecting a row to the contract keeps its id. */
  lemma ProjectKeepsIds(t: Table, s: Store)
    requires WellFormed(t) && HasColumns(t, Contract(s))
    ensures forall i :: 0 <= i < |t.rows| ==> IdOf(Project(t, Contract(s)).rows[i]) == IdOf(t.rows[i])
  {
    forall i | 0 <= i < |t.rows| ensures IdOf(Project(t, Contract(s)).rows[i]) == IdOf(t.rows[i]) {
      assert t.rows[i] in t.rows;
      assert "id" in Contract(s);
    }
  }

  /** Two row sequences with the same ids position by position have their
      first occurrences at the same positions. */
  lemma SameIdsSameFirst(a: seq<Row>, b: seq<Row>)
    requires |a| == |b| && forall i :: 0 <= i < |a| ==> IdOf(a[i]) == IdOf(b[i])
    ensures forall i :: 0 <= i < |a| ==> (FirstWithId(a, i) <==> FirstWithId(b, i))
  {
  }

  /** What a save of a non-empty table with the contract columns writes: the
      rows of the input that are the first with their id, projected to the
      contract, in input order (DedupPrefix). */
  lemma {:induction false} SaveKeepsFirst(t: Table, s: Store)
    requires WellFormed(t) && !IsEmpty(t) && HasColumns(t, Contract(s))
    ensures Salvar(Some(t), s).Some?
    ensures Salvar(Some(t), s).value.rows == DedupById(Project(t, Contract(s)).rows)
    ensures forall x :: x in Salvar(Some(t), s).value.rows <==>
      exists i :: 0 <= i < |t.rows| && FirstWithId(t.rows, i) && x == Project(t, Contract(s)).rows[i]
  {
    var proj := Project(t, Contract(s));
    assert "id" in Contract(s);
    ProjectKeepsIds(t, s);
    SameIdsSameFirst(t.rows, proj.rows);
    forall x ensures x in DedupById(proj.rows) <==>
      exists i :: 0 <= i < |t.rows| && FirstWithId(t.rows, i) && x == proj.rows[i]
    {
      DedupKeepsFirst(proj.rows, x);
    }
  }

  /** Saving what a save wrote writes the same table again. */
  lemma SaveIdempotent(df: Option<Table>, s: Store)
    requires df.Some? ==> WellFormed(df.value)
    requires Salvar(df, s).Some?
    ensures Salvar(Salvar(df, s), s) == Salvar(df, s)
  {
    var w := Salvar(df, s).value;
    if !IsEmpty(w) {
      var proj := Project(w, Contract(s));
      forall i | 0 <= i < |w.rows| ensures proj.rows[i] == w.rows[i] {
        assert w.rows[i] in w.rows;
        assert proj.rows[i].Keys == w.rows[i].Keys;
      }
      assert proj.rows == w.rows;
      DedupDistinct(w.rows);
    }
  }

  /** Saving a table that conforms to its contract writes its rows with the
      repeated ids dropped, first occurrence kept. */
  lemma SaveConforming(t: Table, s: Store)
    requires Conforms(t, s)
    ensures Salvar(Some(t), s) == Some(Table(Contract(s), DedupById(t.rows)))
  {
    if !IsEmpty(t) {
      ProjectSame(t);
    }
  }

  /** df[df["id"] != id]: the rows whose id is not the given one. */
  function WithoutId(t: Table, id: Cell): (r: Table)
    ensures r.cols == t.cols && (WellFormed(t) ==> WellFormed(r))
    ensures forall x :: x in r.rows <==> x in t.rows && IdOf(x) != id
    ensures id !in IdSet(r.rows)
  {
    var r := Where(t, (x: Row) => IdOf(x) != id);
    assert id !in IdSet(r.rows) by {
      forall x | x in r.rows ensures IdOf(x) != id { }
    }
    r
  }

  /** The rows a deletion keeps stay in their original order: deleting from
      a + b gives what is left of a followed by what is left of b. */
  lemma DeletionKeepsOrder(cols: seq<string>, a: seq<Row>, b: seq<Row>, id: Cell)
    ensures WithoutId(Table(cols, a + b), id).rows == WithoutId(Table(cols, a), id).rows + WithoutId(Table(cols, b), id).rows
  {
    FilterAppend(a, b, (x: Row) => IdOf(x) != id);
  }

  /** The outcome of excluir_linha_seguro: an empty table is returned as it
      is and nothing is written; otherwise the remaining rows are returned and
      written; Raised stands for the KeyError of a table without an "id"
      column, or of a save that raises. */
  datatype Deletion = Untouched(table: Table) | Removed(table: Table, written: Table) | Raised

  /** excluir_linha_seguro(df, store, id): drop every row whose id is the given one. */
  function Excluir(df: Table, s: Store, id: string): (d: Deletion)
    requires WellFormed(df)
    ensures IsEmpty(df) ==> d == Untouched(df)
    ensures !IsEmpty(df) && "id" !in df.cols ==> d.Raised?
    ensures !IsEmpty(df) && HasColumns(df, Contract(s)) ==> d.Removed?
    ensures d.Removed? ==> d.table.cols == df.cols
    ensures d.Removed? ==> forall x :: x in d.table.rows <==> x in df.rows && IdOf(x) != Text(id)
    ensures d.Removed? ==> Salvar(Some(d.table), s) == Some(d.written)
  {
    if IsEmpty(df) then Untouched(df)
    else if "id" !in df.cols then Raised
    else
      var kept := WithoutId(df, Text(id));
      match Salvar(Some(kept), s)
      case Some(w) => Removed(kept, w)
      case None => Raised
  }
}
