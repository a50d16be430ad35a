/** The page layer (app.py) over the four stores: the form guards and the
    rows they create, the "Pagar" and "Receber" transitions, the deletion of a
    movement, and the dashboard metrics. */
module App {
  import opened Tables
  import opened Schema
  import opened Loader
  import opened Writer
  import opened Aggregator
  import opened RangeFilter

  /** The column each store is filtered on when the page loads. */
  function DateColumn(s: Store): (col: string)
    ensures col in Contract(s)
  {
    match s
    case Movimentacoes => "data"
    case ContasFuturas => "data_inicio"
    case ReceitasFuturas => "data_prevista"
    case Investimentos => "data"
  }

  /** What the page's save of a conforming table writes: its rows with the
      repeated ids dropped, first occurrence kept (SavedIsSalvar). */
  function Saved(t: Table, s: Store): (w: Table)
    requires Conforms(t, s)
    ensures Conforms(w, s) && DistinctIds(w.rows)
    ensures forall x :: x in w.rows ==> x in t.rows
  {
    Table(Contract(s), DedupById(t.rows))
  }

  /** Saved is what salvar_csv_seguro writes for a conforming table. */
  lemma SavedIsSalvar(t: Table, s: Store)
    requires Conforms(t, s)
    ensures Salvar(Some(t), s) == Some(Saved(t, s))
  {
    SaveConforming(t, s);
  }

  lemma AppendConforms(t: Table, r: Row, s: Store)
    requires Conforms(t, s) && RowConforms(r, s)
    ensures Conforms(Append(t, r), s)
  {
    ColumnsOfContract(s);
  }

  lemma UpdateConforms(t: Table, i: nat, r: Row, s: Store)
    requires Conforms(t, s) && RowConforms(r, s) && i < |t.rows|
    ensures Conforms(Table(t.cols, t.rows[i := r]), s)
  {
    ColumnsOfContract(s);
    forall x | x in t.rows[i := r] ensures RowConforms(x, s) {
      var j :| 0 <= j < |t.rows| && t.rows[i := r][j] == x;
      if j != i { assert t.rows[j] in t.rows; }
    }
  }

  // ----- form guards -----

  /** The whitespace the model treats as blank: the ASCII space, tab, line
      feed, carriage return, vertical tab and form feed (str.strip() removes
      more). */
  predicate IsSpace(ch: char) {
    ch == ' ' || ch == '\t' || ch == '\n' || ch == '\r' || ch == '\U{000B}' || ch == '\U{000C}'
  }

  /** The text without its leading whitespace: a suffix of s whose dropped
      prefix is all whitespace and which does not start with whitespace. */
  function TrimStart(s: string): (r: string)
    ensures |r| <= |s| && r == s[|s| - |r|..]
    ensures forall i :: 0 <= i < |s| - |r| ==> IsSpace(s[i])
    ensures r == [] || !IsSpace(r[0])
  {
    if s != [] && IsSpace(s[0]) then
      var r := TrimStart(s[1..]);
      assert forall i :: 1 <= i < |s| ==> s[1..][i - 1] == s[i];
      r
    else s
  }

  /** The text without its trailing whitespace: a prefix of s whose dropped
      suffix is all whitespace and which does not end with whitespace. */
  function TrimEnd(s: string): (r: string)
    ensures |r| <= |s| && r == s[..|r|]
    ensures forall i :: |r| <= i < |s| ==> IsSpace(s[i])
    ensures r == [] || !IsSpace(r[|r| - 1])
  {
    if s != [] && IsSpace(s[|s| - 1]) then
      var r := TrimEnd(s[..|s| - 1]);
      assert s[..|s| - 1][..|r|] == s[..|r|];
      r
    else s
  }

  /** str.strip(): the text without leading and trailing whitespace; what is
      left neither starts nor ends with whitespace. */
  function Strip(s: string): (r: string)
    ensures |r| <= |s|
    ensures r == [] || (!IsSpace(r[0]) && !IsSpace(r[|r| - 1]))
  {
    var u := TrimStart(s);
    var r := TrimEnd(u);
    assert r != [] ==> r[0] == u[0];
    r
  }

  /** The text is empty or only whitespace, exactly when its strip is "". */
  predicate IsBlank(text: string): (r: bool)
    ensures r <==> Strip(text) == ""
  {
    assert TrimEnd(TrimStart(text)) == [] ==> TrimStart(text) == [];
    forall i :: 0 <= i < |text| ==> IsSpace(text[i])
  }

  /** The guard of the movement form, `not descricao.strip() or valor <= 0`
      negated: a description that is not blank and a positive value. */
  predicate MovementAccepted(descricao: string, valor: real): (r: bool)
    ensures r <==> !IsBlank(descricao) && valor > 0.0
  {
    Strip(descricao) != "" && valor > 0.0
  }

  /** The guard of the bill, income and investment forms, which test the raw
      text: it accepts every text the movement form's guard accepts. */
  predicate EntryAccepted(text: string, valor: real): (r: bool)
    ensures r ==> valor > 0.0
    ensures !IsBlank(text) && valor > 0.0 ==> r
  {
    text != "" && valor > 0.0
  }

  /** Only the movement form strips: a description of one space passes the
      other forms' guard and fails the movement form's. */
  lemma OnlyMovementFormStrips(valor: real)
    requires valor > 0.0
    ensures EntryAccepted(" ", valor) && !MovementAccepted(" ", valor)
    ensures forall d :: MovementAccepted(d, valor) ==> EntryAccepted(d, valor)
  {
    assert IsSpace(" "[0]);
  }

  // ----- the rows the forms and transitions create -----

  /** A movement row; the data and description cells are present. */
  function MovementRow(id: string, data: Cell, tipo: string, categoria: string,
                       descricao: Cell, valor: real, forma: string): (r: Row)
    requires !data.Missing? && !descricao.Missing?
    ensures RowConforms(r, Movimentacoes)
  {
    map["id" := Text(id), "data" := data, "tipo" := Text(tipo), "categoria" := Text(categoria),
        "descricao" := descricao, "valor" := Num(valor), "forma_pagamento" := Text(forma)]
  }

  /** A new bill: nothing paid yet and status "ativa". */
  function BillRow(id: string, descricao: string, valor: real, total: int, data: string): (r: Row)
    ensures RowConforms(r, ContasFuturas)
  {
    map["id" := Text(id), "descricao" := Text(descricao), "valor_parcela" := Num(valor),
        "total_parcelas" := Num(total as real), "parcelas_pagas" := Num(0.0),
        "data_inicio" := Text(data), "status" := Text("ativa")]
  }

  /** A new expected income: status "pendente". */
  function IncomeRow(id: string, descricao: string, valor: real, data: string): (r: Row)
    ensures RowConforms(r, ReceitasFuturas)
  {
    map["id" := Text(id), "descricao" := Text(descricao), "valor" := Num(valor),
        "data_prevista" := Text(data), "status" := Text("pendente")]
  }

  function InvestmentRow(id: string, tipo: string, categoria: string, objetivo: string,
                         valor: real, data: string): (r: Row)
    ensures RowConforms(r, Investimentos)
  {
    map["id" := Text(id), "tipo" := Text(tipo), "categoria" := Text(categoria),
        "objetivo" := Text(objetivo), "valor" := Num(valor), "data" := Text(data)]
  }

  /** A conforming bill holds numbers in its three numeric columns. */
  lemma BillNumbers(b: Row)
    requires RowConforms(b, ContasFuturas)
    ensures b["valor_parcela"].Num? && b["total_parcelas"].Num? && b["parcelas_pagas"].Num?
  {
    assert "valor_parcela" in NumericColumns && "total_parcelas" in NumericColumns;
    assert "parcelas_pagas" in NumericColumns;
  }

  /** "Pagar" on a bill: one more installment paid; the status becomes
      "concluída" once the paid count reaches the total, and no other field
      changes. */
  function PaidBill(b: Row): (r: Row)
    requires RowConforms(b, ContasFuturas)
    ensures RowConforms(r, ContasFuturas)
  {
    SetCellConforms(b, ContasFuturas, "parcelas_pagas", Num(b["parcelas_pagas"].n + 1.0));
    var r := b["parcelas_pagas" := Num(b["parcelas_pagas"].n + 1.0)];
    SetCellConforms(r, ContasFuturas, "status", Text("concluída"));
    if r["parcelas_pagas"].n >= r["total_parcelas"].n then r["status" := Text("concluída")] else r
  }

  /** What PaidBill does to a bill: one more installment paid; the status
      becomes "concluída" once the paid count reaches the total and is kept
      otherwise; no other field changes. */
  lemma PaidBillChanges(b: Row)
    requires RowConforms(b, ContasFuturas)
    ensures b["parcelas_pagas"].Num? && b["total_parcelas"].Num?
    ensures PaidBill(b)["parcelas_pagas"] == Num(b["parcelas_pagas"].n + 1.0)
    ensures PaidBill(b)["total_parcelas"] == b["total_parcelas"]
    ensures b["parcelas_pagas"].n + 1.0 >= b["total_parcelas"].n ==> PaidBill(b)["status"] == Text("concluída")
    ensures b["parcelas_pagas"].n + 1.0 < b["total_parcelas"].n ==> PaidBill(b)["status"] == b["status"]
    ensures forall c | c in b && c != "parcelas_pagas" && c != "status" :: PaidBill(b)[c] == b[c]
  {
    BillNumbers(b);
  }

  /** contas.at[idx, "parcelas_pagas"] += 1, then the status update when the
      paid count reaches the total. */
  method PayCells(b: Row) returns (r: Row)
    requires RowConforms(b, ContasFuturas)
    ensures r == PaidBill(b)
  {
    BillNumbers(b);
    r := b["parcelas_pagas" := Num(b["parcelas_pagas"].n + 1.0)];
    if r["parcelas_pagas"].n >= r["total_parcelas"].n {
      r := r["status" := Text("concluída")];
    }
  }

  /** The bills after "Pagar" on the bill at idx. */
  function BillPaid(t: Table, idx: nat): (r: Table)
    requires Conforms(t, ContasFuturas) && idx < |t.rows|
    ensures Conforms(r, ContasFuturas) && |r.rows| == |t.rows|
  {
    assert t.rows[idx] in t.rows;
    BillNumbers(t.rows[idx]);
    UpdateConforms(t, idx, PaidBill(t.rows[idx]), ContasFuturas);
    Table(t.cols, t.rows[idx := PaidBill(t.rows[idx])])
  }

  /** "Pagar" changes the bill at idx as PaidBill says and no other bill. */
  lemma PayTouchesOneBill(t: Table, idx: nat)
    requires Conforms(t, ContasFuturas) && idx < |t.rows|
    ensures BillPaid(t, idx).cols == t.cols
    ensures BillPaid(t, idx).rows[idx] == PaidBill(t.rows[idx])
    ensures forall j :: 0 <= j < |t.rows| && j != idx ==> BillPaid(t, idx).rows[j] == t.rows[j]
  {
    assert t.rows[idx] in t.rows;
    var paid := PaidBill(t.rows[idx]);
    assert BillPaid(t, idx) == Table(t.cols, t.rows[idx := paid]);
    assert forall j :: 0 <= j < |t.rows| && j != idx ==> t.rows[idx := paid][j] == t.rows[j];
  }

  /** The movement "Pagar" records: an outflow of one installment, dated at the
      bill's start date. */
  function PaymentMovement(b: Row, id: string): (m: Row)
    requires RowConforms(b, ContasFuturas)
    ensures RowConforms(m, Movimentacoes)
    ensures m["id"] == Text(id) && m["tipo"] == Text("saída") && m["categoria"] == Text("Conta Futura")
    ensures m["valor"] == b["valor_parcela"] && m["forma_pagamento"] == Text("Automático")
    ensures m["data"] == b["data_inicio"] && m["descricao"] == b["descricao"]
  {
    MovementRow(id, b["data_inicio"], "saída", "Conta Futura", b["descricao"], b["valor_parcela"].n, "Automático")
  }

  /** "Receber" on an income: its status becomes "recebida", nothing else changes. */
  function ReceivedIncome(r: Row): (r': Row)
    requires RowConforms(r, ReceitasFuturas)
    ensures RowConforms(r', ReceitasFuturas)
    ensures r'["status"] == Text("recebida")
    ensures forall c | c in r && c != "status" :: r'[c] == r[c]
  {
    SetCellConforms(r, ReceitasFuturas, "status", Text("recebida"));
    r["status" := Text("recebida")]
  }

  /** The incomes after "Receber" on the income at idx. */
  function IncomeReceived(t: Table, idx: nat): (r: Table)
    requires Conforms(t, ReceitasFuturas) && idx < |t.rows|
    ensures Conforms(r, ReceitasFuturas) && |r.rows| == |t.rows|
  {
    assert t.rows[idx] in t.rows;
    UpdateConforms(t, idx, ReceivedIncome(t.rows[idx]), ReceitasFuturas);
    Table(t.cols, t.rows[idx := ReceivedIncome(t.rows[idx])])
  }

  /** "Receber" changes the income at idx as ReceivedIncome says and no other income. */
  lemma ReceiveTouchesOneIncome(t: Table, idx: nat)
    requires Conforms(t, ReceitasFuturas) && idx < |t.rows|
    ensures IncomeReceived(t, idx).cols == t.cols
    ensures IncomeReceived(t, idx).rows[idx] == ReceivedIncome(t.rows[idx])
    ensures forall j :: 0 <= j < |t.rows| && j != idx ==> IncomeReceived(t, idx).rows[j] == t.rows[j]
  {
    assert t.rows[idx] in t.rows;
    var received := ReceivedIncome(t.rows[idx]);
    assert IncomeReceived(t, idx) == Table(t.cols, t.rows[idx := received]);
    assert forall j :: 0 <= j < |t.rows| && j != idx ==> t.rows[idx := received][j] == t.rows[j];
  }

  /** The movement "Receber" records: an inflow of the income's value, dated at
      the income's expected date. */
  function ReceiptMovement(r: Row, id: string): (m: Row)
    requires RowConforms(r, ReceitasFuturas)
    ensures RowConforms(m, Movimentacoes)
    ensures m["id"] == Text(id) && m["tipo"] == Text("entrada") && m["categoria"] == Text("Receita Futura")
    ensures m["valor"] == r["valor"] && m["forma_pagamento"] == Text("Automático")
    ensures m["data"] == r["data_prevista"] && m["descricao"] == r["descricao"]
  {
    MovementRow(id, r["data_prevista"], "entrada", "Receita Futura", r["descricao"], r["valor"].n, "Automático")
  }

  /** t[t["id"] == rows[k]["id"]].index[0]: the first row carrying row k's id. */
  function FirstIndexOfId(rows: seq<Row>, k: nat): (i: nat)
    requires k < |rows|
    ensures i <= k && IdOf(rows[i]) == IdOf(rows[k]) && FirstWithId(rows, i)
  {
    if IdOf(rows[0]) == IdOf(rows[k]) then 0
    else
      var i := 1 + FirstIndexOfId(rows[1..], k - 1);
      assert rows[1..][i - 1] == rows[i];
      i
  }

  /** When ids are distinct, the row found by id is the row clicked. */
  lemma FirstIndexOfDistinct(rows: seq<Row>, k: nat)
    requires k < |rows| && DistinctIds(rows)
    ensures FirstIndexOfId(rows, k) == k
  {
  }

  /** A bill of 3 installments with 2 paid: one "Pagar" pays the third and
      completes it. */
  lemma PayLastInstallment(b: Row)
    requires RowConforms(b, ContasFuturas)
    requires b["total_parcelas"] == Num(3.0) && b["parcelas_pagas"] == Num(2.0)
    ensures PaidBill(b)["parcelas_pagas"] == Num(3.0) && PaidBill(b)["status"] == Text("concluída")
  {
    PaidBillChanges(b);
  }

  // ----- dashboard -----

  /** mov["tipo"] == "entrada": an inflow is never an outflow. */
  predicate IsEntrada(x: Row): (r: bool)
    ensures r ==> Get(x, "tipo") != Text("saída")
  {
    Get(x, "tipo") == Text("entrada")
  }

  /** mov["tipo"] == "saída": an outflow is never an inflow, so no movement
      is counted on both sides of the balance. */
  predicate IsSaida(x: Row): (r: bool)
    ensures r ==> !IsEntrada(x)
  {
    Get(x, "tipo") == Text("saída")
  }

  /** receitas["status"] == "pendente": a pending income is one whose
      "Receber" button is still shown. */
  predicate IsPendente(x: Row): (r: bool)
    ensures r ==> Get(x, "status") != Text("recebida")
  {
    Get(x, "status") == Text("pendente")
  }

  datatype Metrics = Metrics(saldo: real, totalContas: real, totalInvestido: real,
                             totalSaidas: real, receitasFuturas: real, meses: real)

  /** "Saldo Atual": the sum of the inflows' values minus the sum of the
      outflows' values, which is the signed total of the movements (0 when
      there is no "valor" column). */
  function Saldo(mov: Table, p: Parsers): (r: real)
    requires "tipo" in mov.cols
    ensures "valor" in mov.cols ==> r == SignedTotal(mov.rows, p)
    ensures "valor" !in mov.cols ==> r == 0.0
  {
    SignedTotalSplits(mov.rows, p);
    Somar(Where(mov, IsEntrada), "valor", p) - Somar(Where(mov, IsSaida), "valor", p)
  }

  /** "Total em Saídas": the sum of the parsable values of the outflows (0
      when there is no "valor" column). */
  function TotalSaidas(mov: Table, p: Parsers): (r: real)
    requires "tipo" in mov.cols
    ensures "valor" in mov.cols ==> r == Total(ParsedValues(Filter(mov.rows, IsSaida), "valor", p))
    ensures "valor" !in mov.cols ==> r == 0.0
  {
    CoercedSumIsParsedTotal(Filter(mov.rows, IsSaida), "valor", p);
    Somar(Where(mov, IsSaida), "valor", p)
  }

  /** "Quanto tempo o dinheiro dura": the balance over the total outflow when
      that total is positive, and 0 otherwise. */
  function Meses(saldo: real, totalSaidas: real): (m: real)
    ensures totalSaidas > 0.0 ==> m * totalSaidas == saldo
    ensures totalSaidas <= 0.0 ==> m == 0.0
  {
    var gastoMedio := if totalSaidas > 0.0 then totalSaidas else 0.0;
    if gastoMedio > 0.0 then saldo / gastoMedio else 0.0
  }

  /** The dashboard's six figures. The bills' total counts every installment
      value once, whatever the bill's status; the future income counts only
      the pending incomes. */
  function Dashboard(mov: Table, contas: Table, receitas: Table, invest: Table, p: Parsers): (m: Metrics)
    requires "tipo" in mov.cols && "status" in receitas.cols
    ensures m.saldo == Saldo(mov, p) && m.totalSaidas == TotalSaidas(mov, p)
    ensures m.totalContas == Somar(contas, "valor_parcela", p)
    ensures m.receitasFuturas == Somar(Where(receitas, IsPendente), "valor", p)
    ensures m.totalInvestido == Somar(invest, "valor", p)
    ensures m.totalSaidas > 0.0 ==> m.meses * m.totalSaidas == m.saldo
    ensures m.totalSaidas <= 0.0 ==> m.meses == 0.0
  {
    var saldo := Saldo(mov, p);
    var totalSaidas := TotalSaidas(mov, p);
    Metrics(saldo, Somar(contas, "valor_parcela", p), Somar(invest, "valor", p), totalSaidas,
            Somar(Where(receitas, IsPendente), "valor", p), Meses(saldo, totalSaidas))
  }

  /** A movement's signed value: inflows count positive, outflows negative,
      any other kind not at all. */
  function SignedValue(x: Row, p: Parsers): real {
    var v := NumberOf(Get(x, "valor"), p).GetOr(0.0);
    if IsEntrada(x) then v else if IsSaida(x) then -v else 0.0
  }

  function SignedTotal(rows: seq<Row>, p: Parsers): real {
    if rows == [] then 0.0 else SignedValue(rows[0], p) + SignedTotal(rows[1..], p)
  }

  lemma {:induction false} SignedTotalSplits(rows: seq<Row>, p: Parsers)
    ensures CoercedSum(Filter(rows, IsEntrada), "valor", p) - CoercedSum(Filter(rows, IsSaida), "valor", p)
         == SignedTotal(rows, p)
  {
    if rows != [] {
      SignedTotalSplits(rows[1..], p);
    }
  }

  lemma {:induction false} SignedTotalAppend(rows: seq<Row>, x: Row, p: Parsers)
    ensures SignedTotal(rows + [x], p) == SignedTotal(rows, p) + SignedValue(x, p)
  {
    if rows == [] {
      assert rows + [x] == [x];
    } else {
      assert (rows + [x])[1..] == rows[1..] + [x];
      SignedTotalAppend(rows[1..], x, p);
    }
  }

  /** The sum over a selection is the coerced sum of the selected rows. */
  lemma SomarWhere(t: Table, keep: Row -> bool, c: string, p: Parsers)
    requires c in t.cols
    ensures Somar(Where(t, keep), c, p) == CoercedSum(Filter(t.rows, keep), c, p)
  {
  }

  /** Appending one movement moves the balance by its signed value, and the
      total outflow by its value when it is an outflow. */
  lemma {:induction false} AppendMovement(mov: Table, m: Row, p: Parsers)
    requires "tipo" in mov.cols && "valor" in mov.cols && m.Keys == Columns(mov.cols)
    ensures Saldo(Append(mov, m), p) == Saldo(mov, p) + SignedValue(m, p)
    ensures TotalSaidas(Append(mov, m), p)
         == TotalSaidas(mov, p) + (if IsSaida(m) then NumberOf(Get(m, "valor"), p).GetOr(0.0) else 0.0)
  {
    var after := Append(mov, m);
    assert after.rows == mov.rows + [m];
    SignedTotalAppend(mov.rows, m, p);
    SomarWhere(mov, IsSaida, "valor", p);
    SomarWhere(after, IsSaida, "valor", p);
    FilterAppend(mov.rows, [m], IsSaida);
    assert [m][1..] == [];
    CoercedSumAppend(Filter(mov.rows, IsSaida), Filter([m], IsSaida), "valor", p);
  }

  /** "Pagar" lowers the balance by the installment and raises the total
      outflow by it. */
  lemma PaymentLowersSaldo(mov: Table, b: Row, id: string, p: Parsers)
    requires Conforms(mov, Movimentacoes) && RowConforms(b, ContasFuturas)
    ensures Saldo(Append(mov, PaymentMovement(b, id)), p) == Saldo(mov, p) - b["valor_parcela"].n
    ensures TotalSaidas(Append(mov, PaymentMovement(b, id)), p) == TotalSaidas(mov, p) + b["valor_parcela"].n
  {
    ColumnsOfContract(Movimentacoes);
    AppendMovement(mov, PaymentMovement(b, id), p);
  }

  /** "Receber" raises the balance by the income's value and leaves the total
      outflow as it was. */
  lemma ReceiptRaisesSaldo(mov: Table, r: Row, id: string, p: Parsers)
    requires Conforms(mov, Movimentacoes) && RowConforms(r, ReceitasFuturas)
    ensures Saldo(Append(mov, ReceiptMovement(r, id)), p) == Saldo(mov, p) + r["valor"].n
    ensures TotalSaidas(Append(mov, ReceiptMovement(r, id)), p) == TotalSaidas(mov, p)
  {
    ColumnsOfContract(Movimentacoes);
    AppendMovement(mov, ReceiptMovement(r, id), p);
  }

  // ----- persistence of the filtered tables -----

  /** Deleting by id keeps a table conforming. */
  lemma WithoutIdConforms(t: Table, s: Store, id: Cell)
    requires Conforms(t, s)
    ensures Conforms(WithoutId(t, id), s)
  {
  }

  /** Filtering a conforming table by date keeps it conforming. */
  lemma FilterConforms(t: Table, s: Store, inicio: int, fim: int, p: Parsers)
    requires Conforms(t, s)
    ensures Conforms(AplicarFiltro(t, DateColumn(s), inicio, fim, p), s)
  {
  }

  /** The table the page holds for a store once the script has loaded it and
      filtered it to the session's date range. */
  function ShownAfterLoad(s: Store, read: ReadResult, inicio: int, fim: int, p: Parsers): (t: Table)
    requires read.Parsed? ==> WellFormed(read.frame)
    ensures Conforms(t, s)
    ensures forall x :: x in t.rows ==> x in Loaded(s, read, p).rows && InRange(x, DateColumn(s), inicio, fim, p)
  {
    FilterConforms(Loaded(s, read, p), s, inicio, fim, p);
    AplicarFiltro(Loaded(s, read, p), DateColumn(s), inicio, fim, p)
  }

  /** What a store's file holds once the script has loaded it: the file as it
      was, or the header alone when it was missing or could not be read. */
  function FileAfterLoad(s: Store, read: ReadResult): Table {
    if read.Parsed? then read.frame else Table(Contract(s), [])
  }

  /** One store's loading and filtering at the top of the script. */
  method LoadStore(s: Store, read: ReadResult, inicio: int, fim: int, p: Parsers) returns (t: Table, file: Table)
    requires read.Parsed? ==> WellFormed(read.frame)
    ensures t == ShownAfterLoad(s, read, inicio, fim, p)
    ensures file == FileAfterLoad(s, read)
  {
    var loaded, written := Load(s, read, p);
    t := AplicarFiltro(loaded, DateColumn(s), inicio, fim, p);
    file := if written.Some? then written.value else read.frame;
  }

  /** Every save of the page writes the table it holds, which is the stored
      table filtered to the session's date range with the new row appended.
      So a stored row outside the range is not written back: after the save
      the store holds only rows in the range and the new row. */
  lemma SaveAfterFilterDropsHiddenRows(stored: Table, s: Store, inicio: int, fim: int, p: Parsers, row: Row)
    requires Conforms(stored, s) && RowConforms(row, s)
    ensures forall x :: x in Saved(Append(AplicarFiltro(stored, DateColumn(s), inicio, fim, p), row), s).rows ==>
      x == row || (x in stored.rows && InRange(x, DateColumn(s), inicio, fim, p))
  {
    var shown := AplicarFiltro(stored, DateColumn(s), inicio, fim, p);
    FilterConforms(stored, s, inicio, fim, p);
    AppendConforms(shown, row, s);
    var all := Append(shown, row);
    assert all.rows == shown.rows + [row];
    forall x | x in Saved(all, s).rows
      ensures x == row || (x in stored.rows && InRange(x, DateColumn(s), inicio, fim, p))
    {
      assert x in all.rows;
    }
  }

  /** A new row whose id is fresh (as a uuid4 is) is written by the save. */
  lemma FreshRowIsSaved(t: Table, row: Row, s: Store)
    requires Conforms(t, s) && RowConforms(row, s) && IdOf(row) !in IdSet(t.rows)
    ensures row in Saved(Append(t, row), s).rows
  {
    var rows := t.rows + [row];
    assert rows[..|rows| - 1] == t.rows;
  }

  /** The page script's tables after loading and filtering, and the stores'
      files. Each button press runs one method and then reruns the script. */
  class Atlas {
    var mov: Table
    var contas: Table
    var receitas: Table
    var invest: Table
    /** What each store's file holds. */
    var files: map<Store, Table>

    ghost predicate Valid()
      reads this
    {
      Conforms(mov, Movimentacoes) && Conforms(contas, ContasFuturas) &&
      Conforms(receitas, ReceitasFuturas) && Conforms(invest, Investimentos)
    }

    /** Lines 20-30 of the script: load the four stores (which rewrites a
        missing or unreadable file with its header), then filter each to the
        session's date range. */
    constructor Start(readOf: Store -> ReadResult, inicio: int, fim: int, p: Parsers)
      requires forall s :: readOf(s).Parsed? ==> WellFormed(readOf(s).frame)
      ensures Valid()
      ensures mov == ShownAfterLoad(Movimentacoes, readOf(Movimentacoes), inicio, fim, p)
      ensures contas == ShownAfterLoad(ContasFuturas, readOf(ContasFuturas), inicio, fim, p)
      ensures receitas == ShownAfterLoad(ReceitasFuturas, readOf(ReceitasFuturas), inicio, fim, p)
      ensures invest == ShownAfterLoad(Investimentos, readOf(Investimentos), inicio, fim, p)
      ensures files == map[Movimentacoes := FileAfterLoad(Movimentacoes, readOf(Movimentacoes)),
                           ContasFuturas := FileAfterLoad(ContasFuturas, readOf(ContasFuturas)),
                           ReceitasFuturas := FileAfterLoad(ReceitasFuturas, readOf(ReceitasFuturas)),
                           Investimentos := FileAfterLoad(Investimentos, readOf(Investimentos))]
    {
      var m, fm := LoadStore(Movimentacoes, readOf(Movimentacoes), inicio, fim, p);
      var c, fc := LoadStore(ContasFuturas, readOf(ContasFuturas), inicio, fim, p);
      var r, fr := LoadStore(ReceitasFuturas, readOf(ReceitasFuturas), inicio, fim, p);
      var i, fi := LoadStore(Investimentos, readOf(Investimentos), inicio, fim, p);
      mov, contas, receitas, invest := m, c, r, i;
      files := map[Movimentacoes := fm, ContasFuturas := fc, ReceitasFuturas := fr, Investimentos := fi];
    }

    /** The "Nova Movimentação" form. */
    method AddMovement(tipo: string, categoria: string, descricao: string, valor: real,
                       forma: string, data: string, newId: string) returns (added: bool)
      requires Valid()
      modifies this
      ensures Valid()
      ensures added == MovementAccepted(descricao, valor)
      ensures added ==> mov == Append(old(mov), MovementRow(newId, Text(data), tipo, categoria, Text(descricao), valor, forma))
      ensures added ==> files == old(files)[Movimentacoes := Saved(mov, Movimentacoes)]
      ensures !added ==> mov == old(mov) && files == old(files)
      ensures contas == old(contas) && receitas == old(receitas) && invest == old(invest)
    {
      added := MovementAccepted(descricao, valor);
      if !added { return; }
      RecordMovement(MovementRow(newId, Text(data), tipo, categoria, Text(descricao), valor, forma));
    }

    /** The "Nova Conta Futura" form. */
    method AddBill(descricao: string, valor: real, total: int, data: string, newId: string) returns (added: bool)
      requires Valid()
      modifies this
      ensures Valid()
      ensures added == EntryAccepted(descricao, valor)
      ensures added ==> contas == Append(old(contas), BillRow(newId, descricao, valor, total, data))
      ensures added ==> contas.rows[|contas.rows| - 1]["parcelas_pagas"] == Num(0.0)
      ensures added ==> contas.rows[|contas.rows| - 1]["status"] == Text("ativa")
      ensures added ==> files == old(files)[ContasFuturas := Saved(contas, ContasFuturas)]
      ensures !added ==> contas == old(contas) && files == old(files)
      ensures mov == old(mov) && receitas == old(receitas) && invest == old(invest)
    {
      added := EntryAccepted(descricao, valor);
      if !added { return; }
      contas := Append(contas, BillRow(newId, descricao, valor, total, data));
      files := files[ContasFuturas := Saved(contas, ContasFuturas)];
    }

    /** The "Nova Receita Futura" form. */
    method AddIncome(descricao: string, valor: real, data: string, newId: string) returns (added: bool)
      requires Valid()
      modifies this
      ensures Valid()
      ensures added == EntryAccepted(descricao, valor)
      ensures added ==> receitas == Append(old(receitas), IncomeRow(newId, descricao, valor, data))
      ensures added ==> receitas.rows[|receitas.rows| - 1]["status"] == Text("pendente")
      ensures added ==> files == old(files)[ReceitasFuturas := Saved(receitas, ReceitasFuturas)]
      ensures !added ==> receitas == old(receitas) && files == old(files)
      ensures mov == old(mov) && contas == old(contas) && invest == old(invest)
    {
      added := EntryAccepted(descricao, valor);
      if !added { return; }
      receitas := Append(receitas, IncomeRow(newId, descricao, valor, data));
      files := files[ReceitasFuturas := Saved(receitas, ReceitasFuturas)];
    }

    /** The "Novo Investimento / Reserva" form. */
    method AddInvestment(tipo: string, categoria: string, objetivo: string, valor: real,
                         data: string, newId: string) returns (added: bool)
      requires Valid()
      modifies this
      ensures Valid()
      ensures added == EntryAccepted(objetivo, valor)
      ensures added ==> invest == Append(old(invest), InvestmentRow(newId, tipo, categoria, objetivo, valor, data))
      ensures added ==> files == old(files)[Investimentos := Saved(invest, Investimentos)]
      ensures !added ==> invest == old(invest) && files == old(files)
      ensures mov == old(mov) && contas == old(contas) && receitas == old(receitas)
    {
      added := EntryAccepted(objetivo, valor);
      if !added { return; }
      invest := Append(invest, InvestmentRow(newId, tipo, categoria, objetivo, valor, data));
      files := files[Investimentos := Saved(invest, Investimentos)];
    }

    /** "Excluir" on movement k: every movement with its id goes. */
    method DeleteMovement(k: nat)
      requires Valid() && k < |mov.rows|
      modifies this
      ensures Valid()
      ensures mov == WithoutId(old(mov), IdOf(old(mov.rows[k])))
      ensures files == old(files)[Movimentacoes := Saved(mov, Movimentacoes)]
      ensures contas == old(contas) && receitas == old(receitas) && invest == old(invest)
    {
      WithoutIdConforms(mov, Movimentacoes, IdOf(mov.rows[k]));
      mov := WithoutId(mov, IdOf(mov.rows[k]));
      files := files[Movimentacoes := Saved(mov, Movimentacoes)];
    }

    /** pd.concat of one movement onto the page's movements, then their save. */
    method RecordMovement(m: Row)
      requires Valid() && RowConforms(m, Movimentacoes)
      modifies this
      ensures Valid()
      ensures mov == Append(old(mov), m)
      ensures files == old(files)[Movimentacoes := Saved(mov, Movimentacoes)]
      ensures contas == old(contas) && receitas == old(receitas) && invest == old(invest)
    {
      AppendConforms(mov, m, Movimentacoes);
      mov := Append(mov, m);
      files := files[Movimentacoes := Saved(mov, Movimentacoes)];
    }

    /** The cell updates of "Pagar" on the bill at idx (one more installment
        paid, "concluída" once all are), then the bills' save. */
    method PayInstallment(idx: nat)
      requires Valid() && idx < |contas.rows|
      modifies this
      ensures Valid()
      ensures contas == BillPaid(old(contas), idx)
      ensures files == old(files)[ContasFuturas := Saved(contas, ContasFuturas)]
      ensures mov == old(mov) && receitas == old(receitas) && invest == old(invest)
    {
      assert contas.rows[idx] in contas.rows;
      BillNumbers(contas.rows[idx]);
      var bill := PayCells(contas.rows[idx]);
      contas := Table(contas.cols, contas.rows[idx := bill]);
      assert contas == BillPaid(old(contas), idx);
      files := files[ContasFuturas := Saved(contas, ContasFuturas)];
    }

    /** The cell update of "Receber" on the income at idx, then the incomes' save. */
    method MarkReceived(idx: nat)
      requires Valid() && idx < |receitas.rows|
      modifies this
      ensures Valid()
      ensures receitas == IncomeReceived(old(receitas), idx)
      ensures files == old(files)[ReceitasFuturas := Saved(receitas, ReceitasFuturas)]
      ensures mov == old(mov) && contas == old(contas) && invest == old(invest)
    {
      assert receitas.rows[idx] in receitas.rows;
      var income := receitas.rows[idx]["status" := Text("recebida")];
      assert income == ReceivedIncome(receitas.rows[idx]);
      receitas := Table(receitas.cols, receitas.rows[idx := income]);
      assert receitas == IncomeReceived(old(receitas), idx);
      files := files[ReceitasFuturas := Saved(receitas, ReceitasFuturas)];
    }

    /** "Pagar" on bill k. The button is shown only while the bill is not
        "concluída"; the update goes to the first bill with its id. */
    method Pay(k: nat, newId: string) returns (offered: bool)
      requires Valid() && k < |contas.rows|
      modifies this
      ensures Valid()
      ensures offered == (Get(old(contas.rows[k]), "status") != Text("concluída"))
      ensures offered ==> contas == BillPaid(old(contas), FirstIndexOfId(old(contas.rows), k))
      ensures offered ==> mov == Append(old(mov), PaymentMovement(old(contas.rows[k]), newId))
      ensures offered ==> files == old(files)[ContasFuturas := Saved(contas, ContasFuturas)]
                                             [Movimentacoes := Saved(mov, Movimentacoes)]
      ensures !offered ==> contas == old(contas) && mov == old(mov) && files == old(files)
      ensures receitas == old(receitas) && invest == old(invest)
    {
      var row := contas.rows[k];
      assert row in contas.rows;
      offered := Get(row, "status") != Text("concluída");
      if !offered { return; }
      PayInstallment(FirstIndexOfId(contas.rows, k));
      RecordMovement(PaymentMovement(row, newId));
    }

    /** "Receber" on income k. The button is shown only while the income is
        not "recebida"; the update goes to the first income with its id. */
    method Receive(k: nat, newId: string) returns (offered: bool)
      requires Valid() && k < |receitas.rows|
      modifies this
      ensures Valid()
      ensures offered == (Get(old(receitas.rows[k]), "status") != Text("recebida"))
      ensures offered ==> receitas == IncomeReceived(old(receitas), FirstIndexOfId(old(receitas.rows), k))
      ensures offered ==> mov == Append(old(mov), ReceiptMovement(old(receitas.rows[k]), newId))
      ensures offered ==> files == old(files)[ReceitasFuturas := Saved(receitas, ReceitasFuturas)]
                                             [Movimentacoes := Saved(mov, Movimentacoes)]
      ensures !offered ==> receitas == old(receitas) && mov == old(mov) && files == old(files)
      ensures contas == old(contas) && invest == old(invest)
    {
      var row := receitas.rows[k];
      assert row in receitas.rows;
      offered := Get(row, "status") != Text("recebida");
      if !offered { return; }
      MarkReceived(FirstIndexOfId(receitas.rows, k));
      RecordMovement(ReceiptMovement(row, newId));
    }
  }
}
