/** The schema registry (CONTRATOS): for each of the four stores, its file
    name and the ordered list of columns its table must have. */
module Schema {
  import opened Tables

  datatype Store = Movimentacoes | ContasFuturas | ReceitasFuturas | Investimentos

  /** The key of CONTRATOS (and the file name) of each store. */
  function FileName(s: Store): string {
    match s
    case Movimentacoes => "movimentacoes.csv"
    case ContasFuturas => "contas_futuras.csv"
    case ReceitasFuturas => "receitas_futuras.csv"
    case Investimentos => "investimentos.csv"
  }

  /** The contract of a store: its columns in order. Every contract starts
      with "id" and names each column once. */
  function Contract(s: Store): (cols: seq<string>)
    ensures Distinct(cols) && |cols| > 0 && cols[0] == "id"
  {
    match s
    case Movimentacoes =>
      ["id", "data", "tipo", "categoria", "descricao", "valor", "forma_pagamento"]
    case ContasFuturas =>
      ["id", "descricao", "valor_parcela", "total_parcelas", "parcelas_pagas", "data_inicio", "status"]
    case ReceitasFuturas =>
      ["id", "descricao", "valor", "data_prevista", "status"]
    case Investimentos =>
      ["id", "tipo", "categoria", "objetivo", "valor", "data"]
  }

  /** The contract's columns as a set, written out as set displays so that
      the solver need not build the set from the sequence in every proof that
      checks a row's keys; ColumnsOfContract proves it is Columns(Contract(s)). */
  function ContractColumns(s: Store): set<string> {
    match s
    case Movimentacoes =>
      {"id", "data", "tipo", "categoria", "descricao", "valor", "forma_pagamento"}
    case ContasFuturas =>
      {"id", "descricao", "valor_parcela", "total_parcelas", "parcelas_pagas", "data_inicio", "status"}
    case ReceitasFuturas =>
      {"id", "descricao", "valor", "data_prevista", "status"}
    case Investimentos =>
      {"id", "tipo", "categoria", "objetivo", "valor", "data"}
  }

  lemma ColumnsOfContract(s: Store)
    ensures ContractColumns(s) == Columns(Contract(s))
  {
  }

  /** The columns the loader coerces to numbers. */
  const NumericColumns: seq<string> := ["valor", "valor_parcela", "total_parcelas", "parcelas_pagas"]

  /** The columns each store's numeric coercion touches: only "valor" in
      movements, incomes and investments, and the three installment columns
      in bills. */
  lemma NumericColumnsOfStores()
    ensures (set c | c in Contract(Movimentacoes) && c in NumericColumns) == {"valor"}
    ensures (set c | c in Contract(ContasFuturas) && c in NumericColumns)
         == {"valor_parcela", "total_parcelas", "parcelas_pagas"}
    ensures (set c | c in Contract(ReceitasFuturas) && c in NumericColumns) == {"valor"}
    ensures (set c | c in Contract(Investimentos) && c in NumericColumns) == {"valor"}
  {
  }

  /** CONTRATOS[name]: None stands for the KeyError of a name that is not a key. */
  function ContractNamed(name: string): (r: Option<seq<string>>)
    ensures r.Some? <==> exists s :: FileName(s) == name
    ensures forall s :: FileName(s) == name ==> r == Some(Contract(s))
  {
    if name == FileName(Movimentacoes) then Some(Contract(Movimentacoes))
    else if name == FileName(ContasFuturas) then Some(Contract(ContasFuturas))
    else if name == FileName(ReceitasFuturas) then Some(Contract(ReceitasFuturas))
    else if name == FileName(Investimentos) then Some(Contract(Investimentos))
    else None
  }

  /** The store names the page layer passes when it saves ("movimentacoes",
      without ".csv") are not keys of CONTRATOS. */
  lemma PageKeysAreNotContractKeys()
    ensures ContractNamed("movimentacoes").None?
    ensures ContractNamed("contas_futuras").None?
    ensures ContractNamed("receitas_futuras").None?
    ensures ContractNamed("investimentos").None?
  {
    forall s: Store ensures FileName(s) != "movimentacoes" && FileName(s) != "contas_futuras"
      && FileName(s) != "receitas_futuras" && FileName(s) != "investimentos"
    {
      assert FileName(s)[|FileName(s)| - 1] == 'v';
    }
  }

  /** A row as the loader leaves it: exactly the contract's columns, no
      missing cell, and numbers in the numeric columns. */
  predicate RowConforms(r: Row, s: Store) {
    r.Keys == ContractColumns(s) &&
    (forall c | c in r :: !r[c].Missing?) &&
    (forall c | c in r && c in NumericColumns :: r[c].Num?)
  }

  /** A table that satisfies a store's contract: the contract's columns in
      order, and every row conforming. */
  predicate Conforms(t: Table, s: Store) {
    WellFormed(t) && t.cols == Contract(s) && forall r | r in t.rows :: RowConforms(r, s)
  }

  /** Overwriting one cell of a conforming row with a present value, and a
      number in a numeric column, keeps the row conforming. */
  lemma SetCellConforms(r: Row, s: Store, c: string, x: Cell)
    requires RowConforms(r, s) && c in r && !x.Missing? && (c in NumericColumns ==> x.Num?)
    ensures RowConforms(r[c := x], s)
  {
  }
}
