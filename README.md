# Atlas Financeiro — a Dafny model of the table layer and the page transitions

Atlas Financeiro is a small personal-finance tracker. It keeps four stores as
CSV tables: movements (`movimentacoes`), future bills (`contas_futuras`), future
incomes (`receitas_futuras`) and investments (`investimentos`). Each store has a
fixed column contract (`CONTRATOS`). The tracker has two layers:

- The table layer (`utils.py`) loads a store and reconciles it with its
  contract. It also writes a store back (dropping repeated ids), deletes rows by
  id, sums and averages a column, and filters a table to an inclusive date range.
- The page script (`app.py`) loads and filters the four stores. It adds rows
  through four forms, deletes movements, runs the "Pagar" transition on bills
  and the "Receber" transition on incomes, and shows the dashboard figures.

This model treats a DataFrame as an ordered list of columns plus a sequence of
rows. A row is a map from column name to cell, and a cell is missing, text or a
number (`Tables`). Its modules are:

- `Schema`: the contracts.
- `Loader`: `carregar_csv_seguro`, with the two loops of its reconciliation as
  methods.
- `Writer`: `salvar_csv_seguro` and `excluir_linha_seguro`.
- `Aggregator`: `somar_coluna` and `media_coluna`.
- `RangeFilter`: `aplicar_filtro`.
- `App`: the page script. Its tables and the stores' files are the fields of
  the class `App.Atlas`, and each button press is one method of that class.

Pandas' number and date parsing is an abstract parameter (`Parsers`). A blank
or missing cell never parses.

The page script saves through `salvar_planilha(df, "movimentacoes")`. No such
function exists in `utils.py`, and keys without ".csv" are not keys of
`CONTRATOS` (`Schema.PageKeysAreNotContractKeys`). The model therefore gives
every page save the meaning of `salvar_csv_seguro` on the store's contract.

The page saves the tables it holds after the date filter. So a save drops
every stored row outside the session's date range
(`App.SaveAfterFilterDropsHiddenRows`). The model keeps this behaviour as the
code has it.

## Model

| member | source | states |
|---|---|---|
| Tables.NumberOf | utils.py:77 | pd.to_numeric(errors="coerce") on one cell: a number stays itself; a missing or blank cell is NaN |
| Tables.DateOf | utils.py:175 | pd.to_datetime(errors="coerce") on one cell: a missing or blank cell is NaT |
| Tables.Filter | utils.py:177 | a boolean mask keeps exactly the elements it selects and adds none |
| Tables.FilterAppend | utils.py:177 | masking a + b gives the masked a followed by the masked b, so survivors keep their order |
| Tables.Where | utils.py:111 | df[mask]: the same columns, and exactly the rows the mask selects; a well-formed table stays well formed |
| Tables.Append | app.py:110 | pd.concat of one row: the same columns, the old rows unchanged in front and the new row last; well formed when the row has the table's columns |
| Tables.Project | utils.py:71 | df[cols]: exactly the given columns in that order, the same number of rows, and each kept cell unchanged |
| Schema.Contract | utils.py:11-45 | each store's columns, in order; every contract has "id" first and no repeated column |
| Schema.ContractNamed | utils.py:54 | looking a name up in CONTRATOS succeeds exactly for the four file names and gives that store's contract |
| Schema.NumericColumnsOfStores | utils.py:75-76 | the numeric coercion touches only "valor" in movements, incomes and investments, and valor_parcela, total_parcelas and parcelas_pagas in bills |
| Schema.PageKeysAreNotContractKeys | app.py:111 | the store keys the page passes when saving ("movimentacoes" and the others, without ".csv") are not keys of CONTRATOS |
| Loader.Filled | utils.py:73 | fillna("") leaves no cell missing and keeps every present cell |
| Loader.LoadedCell | utils.py:73-77 | a loaded cell is never missing; in a numeric column it is a number (a number stays, a missing or blank cell becomes 0); elsewhere a present cell stays |
| Loader.Reconciled | utils.py:67-77 | the reconciled table has exactly the given columns in that order and the same rows in the same order; no cell is missing; a missing non-numeric cell becomes ""; a numeric column holds the parsed number, or 0 when the cell does not parse |
| Loader.AddColumn | utils.py:68-69 | a column the table lacks is appended and is None in every row; the rows are otherwise unchanged |
| Loader.Lacking | utils.py:67-68 | the contract columns a table lacks, each once: every one is a contract column the table lacks, every contract column is in the table or in the list, and the table's columns followed by them repeat none |
| Loader.FillNa | utils.py:73 | every missing cell becomes "", the columns and the row count stay |
| Loader.Coerce | utils.py:77 | one column becomes its parsed numbers, 0 where a cell does not parse, and no other cell changes |
| Loader.AddMissingColumns | utils.py:67-69 | after the loop the columns are the input's own columns, in place, followed by exactly the contract columns the input lacked (Lacking); every cell is the input's cell or None, and every cell the input had is kept |
| Loader.CoerceColumns | utils.py:75-77 | after the loop over the listed columns (the numeric ones), every listed column the table has holds the parsed number or 0, and every other column is unchanged |
| Loader.Reconcile | utils.py:67-77 | adding the missing columns, projecting, filling and coercing, step by step, gives exactly Reconciled |
| Loader.Loaded | utils.py:52-84 | the loaded table always conforms to the contract; a missing file, a read that raises or a table without columns gives the empty table with exactly the contract's columns; otherwise every parsed row is kept |
| Loader.Load | utils.py:52-84 | returns Loaded, and writes the header-only table exactly when the file was missing or unreadable |
| Loader.ReconcileConforming | utils.py:67-77 | reconciling a table that already conforms to its contract gives it back |
| Loader.LoadTwice | utils.py:52-84 | loading what a load produced gives the same table again |
| Writer.DedupById | utils.py:96-97 | dropping repeated ids keeps only input rows, keeps every id of the input, and leaves the ids pairwise distinct |
| Writer.DedupKeepsFirst | utils.py:97 | a row survives exactly when it is the first row of the input carrying its id (keep="first") |
| Writer.DedupPrefix | utils.py:97 | deduplicating a prefix gives a prefix of the result, so survivors keep their relative order |
| Writer.DedupDistinct | utils.py:97 | rows whose ids are already distinct pass through unchanged |
| Writer.DedupIdempotent | utils.py:97 | dropping repeated ids twice is the same as dropping them once |
| Writer.Salvar | utils.py:87-100 | a missing or empty table is written as the empty table with the contract's columns; a non-empty table without every contract column raises; otherwise the written table has the contract's columns, distinct ids and no more rows than the input |
| Writer.SaveKeepsFirst | utils.py:94-97 | saving a non-empty table with the contract columns writes exactly the projections of the rows that are the first with their id, in input order |
| Writer.SaveIdempotent | utils.py:87-100 | saving what a save wrote writes the same table again |
| Writer.SaveConforming | utils.py:91-99 | saving a conforming table writes its rows with repeated ids dropped, first occurrence kept |
| Writer.WithoutId | utils.py:111 | the rows whose id differs from the target, in the same columns; the target id no longer appears |
| Writer.DeletionKeepsOrder | utils.py:111 | deleting from a + b gives what is left of a followed by what is left of b, so survivors keep their order |
| Writer.Excluir | utils.py:107-113 | an empty table is returned untouched and nothing is written; a table without "id" raises; a table with the contract columns keeps exactly the rows whose id differs from the target, and that table is what is saved |
| Aggregator.CoercedSumIsParsedTotal | utils.py:119 | summing with unparsable cells counted as 0 equals summing only the parsable cells |
| Aggregator.CoercedSumAppend | utils.py:119 | the coerced sum of a + b is the sum of the coerced sums |
| Aggregator.ParsedValues | utils.py:125 | dropna() keeps at most as many values as there are rows |
| Aggregator.NothingParses | utils.py:119-127 | on a column where no cell parses, the fillna(0) sum is 0 and dropna() leaves nothing |
| Aggregator.EverythingParses | utils.py:125 | on a column where every cell parses, dropna() drops nothing |
| Aggregator.Somar | utils.py:116-119 | 0 for an empty table or absent column; otherwise the total of the column's parsable values |
| Aggregator.Media | utils.py:122-128 | 0 for an empty table, an absent column or no parsable value; otherwise the mean of the parsable values only, so mean times their count equals somar_coluna |
| Aggregator.SumAndMeanOfUnparsableCell | utils.py:116-128 | on the column [10, "x", 20] the sum is 30 and the mean is 15 |
| RangeFilter.AplicarFiltro | utils.py:168-177 | the table unchanged when empty or without the date column; otherwise exactly the rows whose date parses and lies in [inicio, fim], no new rows, same columns |
| RangeFilter.InRange | utils.py:175-177 | a row is in range only when its date parses; a missing or blank date (NaT) is never in range, and nothing is in an empty range |
| RangeFilter.FilterKeepsOrder | utils.py:177 | filtering a + b gives the filtered a followed by the filtered b, so the result is a subsequence in order |
| RangeFilter.InclusiveRangeExample | utils.py:177 | with the range 2024-01-01 to 2024-01-31, rows dated 2024-01-01 and 2024-01-15 stay (both ends included) and 2024-02-01 goes |
| App.DateColumn | app.py:27-30 | each store's filter column is one of its contract's columns |
| App.Saved | utils.py:91-99 | what a save of a conforming table writes conforms, has distinct ids and holds only input rows |
| App.SavedIsSalvar | utils.py:87-100 | Saved is exactly what salvar_csv_seguro writes for a conforming table |
| App.AppendConforms | app.py:110 | appending a conforming row to a conforming table keeps it conforming |
| App.UpdateConforms | app.py:177-180 | replacing one row of a conforming table by a conforming row keeps it conforming |
| App.OnlyMovementFormStrips | app.py:96 | a one-space description passes the bill, income and investment guards but not the movement guard, and every description the movement guard accepts the others accept |
| App.TrimStart | app.py:96 | the text without its leading whitespace: a suffix whose dropped part is all whitespace and which does not start with whitespace |
| App.TrimEnd | app.py:96 | the text without its trailing whitespace: a prefix whose dropped part is all whitespace and which does not end with whitespace |
| App.Strip | app.py:96 | str.strip(): no longer than the text, and neither starting nor ending with whitespace |
| App.IsBlank | app.py:96 | a text is all whitespace exactly when its strip is empty |
| App.MovementAccepted | app.py:96 | the movement form accepts exactly a description that is not blank once stripped and a positive value |
| App.EntryAccepted | app.py:146 | the raw-text guard of the other three forms (app.py:146, 215, 278) needs a positive value and accepts every text the stripped guard accepts |
| App.MovementRow | app.py:100-108 | a new movement row conforms to the movement contract |
| App.BillRow | app.py:150-158 | a new bill row conforms to the bill contract |
| App.IncomeRow | app.py:219-225 | a new income row conforms to the income contract |
| App.InvestmentRow | app.py:282-289 | a new investment row conforms to the investment contract |
| App.BillNumbers | app.py:177-179 | a conforming bill holds numbers in valor_parcela, total_parcelas and parcelas_pagas |
| App.PaidBill | app.py:177-180 | a paid bill still conforms to the bill contract |
| App.PaidBillChanges | app.py:177-180 | "Pagar" adds exactly 1 to parcelas_pagas; the status becomes "concluída" when the new count reaches total_parcelas and is kept otherwise; no other field changes |
| App.PayCells | app.py:177-180 | the two in-place cell writes of "Pagar" produce PaidBill |
| App.BillPaid | app.py:176-180 | the bills after "Pagar" still conform and keep their count |
| App.PayTouchesOneBill | app.py:176-180 | "Pagar" changes the bill at idx as PaidBill says and leaves every other bill unchanged |
| App.PaymentMovement | app.py:184-192 | the movement "Pagar" records conforms and carries the new id, tipo "saída", categoria "Conta Futura", the installment as its value, forma_pagamento "Automático", and the bill's data_inicio and descricao |
| App.ReceivedIncome | app.py:242 | "Receber" sets the status to "recebida" and changes no other field |
| App.IncomeReceived | app.py:241-242 | the incomes after "Receber" still conform and keep their count |
| App.ReceiveTouchesOneIncome | app.py:241-242 | "Receber" changes the income at idx as ReceivedIncome says and leaves every other income unchanged |
| App.ReceiptMovement | app.py:245-253 | the movement "Receber" records conforms and carries the new id, tipo "entrada", categoria "Receita Futura", the income's value, forma_pagamento "Automático", and the income's data_prevista and descricao |
| App.FirstIndexOfId | app.py:176 | the index found by id is at or before the clicked row, carries the clicked row's id and is the first row with it |
| App.FirstIndexOfDistinct | app.py:176 | when ids are distinct, the row found by id is the clicked row |
| App.PayLastInstallment | app.py:177-180 | paying the third of 3 installments sets parcelas_pagas to 3 and the status to "concluída" |
| App.IsEntrada | app.py:53 | the inflow mask selects no outflow |
| App.IsSaida | app.py:54 | the outflow mask selects no inflow, so no movement counts on both sides of the balance |
| App.IsPendente | app.py:59 | a pending income is never a received one |
| App.Saldo | app.py:53-56 | the balance is the signed total of the movements: inflow values count positive and outflow values negative; 0 without a "valor" column |
| App.TotalSaidas | app.py:54-57 | the outflow total is the sum of the parsable values of the "saída" rows; 0 without a "valor" column |
| App.Meses | app.py:72-73 | the months figure times the total outflow is the balance when the outflow is positive, and 0 otherwise |
| App.Dashboard | app.py:53-73 | the six dashboard figures: the balance, the outflow total, the bills' installment total, the pending incomes' total, the invested total, and the months figure |
| App.SignedTotalSplits | app.py:53-56 | the inflow sum minus the outflow sum is the signed total of the movements |
| App.SignedTotalAppend | app.py:56 | appending a movement adds its signed value to the signed total |
| App.SomarWhere | app.py:53-57 | summing a selection is the coerced sum of the selected rows |
| App.AppendMovement | app.py:53-57 | appending a movement moves the balance by its signed value and the outflow total by its value when it is an outflow |
| App.PaymentLowersSaldo | app.py:184-194 | "Pagar" lowers the balance by the installment and raises the outflow total by it |
| App.ReceiptRaisesSaldo | app.py:245-255 | "Receber" raises the balance by the income's value and leaves the outflow total unchanged |
| App.WithoutIdConforms | app.py:127 | deleting by id keeps a table conforming |
| App.FilterConforms | app.py:27-30 | filtering a conforming table by date keeps it conforming |
| App.ShownAfterLoad | app.py:20-30 | the table the page holds after loading and filtering conforms, and holds only loaded rows whose date is in range |
| App.LoadStore | app.py:20-30 | one store's load then filter gives ShownAfterLoad, and the file is left as it was or rewritten with the header alone |
| App.SaveAfterFilterDropsHiddenRows | app.py:27-30 | a save after a filtered append writes only the new row and stored rows inside the date range |
| App.FreshRowIsSaved | app.py:100-111 | a new row whose id is fresh is among the rows the save writes |
| App.Atlas.Start | app.py:20-30 | the page's four tables are the stores loaded and filtered, the files are as loading left them, and every table conforms |
| App.Atlas.AddMovement | app.py:95-111 | the movement is added exactly when the stripped description is non-blank and the value is positive; then it is appended at the end and the movements are saved; nothing else changes |
| App.Atlas.AddBill | app.py:145-161 | the bill is added exactly when the description is non-empty and the value positive; it is appended with parcelas_pagas 0 and status "ativa" and the bills are saved; nothing else changes |
| App.Atlas.AddIncome | app.py:214-228 | the income is added exactly when the description is non-empty and the value positive; it is appended with status "pendente" and the incomes are saved; nothing else changes |
| App.Atlas.AddInvestment | app.py:277-292 | the investment is added exactly when the objective is non-empty and the value positive; it is appended and the investments are saved; nothing else changes |
| App.Atlas.DeleteMovement | app.py:126-128 | every movement carrying the clicked row's id is removed, the rest stay, and the movements are saved; the other tables do not change |
| App.Atlas.RecordMovement | app.py:194-195 | one movement is appended at the end and the movements are saved; nothing else changes |
| App.Atlas.PayInstallment | app.py:176-182 | the bill at idx is paid as BillPaid says and the bills are saved |
| App.Atlas.MarkReceived | app.py:241-243 | the income at idx is received as IncomeReceived says and the incomes are saved |
| App.Atlas.Pay | app.py:173-197 | "Pagar" is offered exactly when the clicked bill is not "concluída"; then the first bill with its id is paid, the payment movement is appended, both stores are saved, and incomes and investments are unchanged; otherwise nothing changes |
| App.Atlas.Receive | app.py:238-258 | "Receber" is offered exactly when the clicked income is not "recebida"; then the first income with its id is received, the receipt movement is appended, both stores are saved, and bills and investments are unchanged; otherwise nothing changes |

## Left out

- File and OS I/O (`os.makedirs`, `read_csv`, `to_csv`, the path join): the result of reading a file is an input (`Loader.ReadResult`), and a write is the table written.
- CSV text and its round trip: a table written and read back is not modelled at the character level.
- The parsing rules of `pd.to_numeric` and `pd.to_datetime`: they are the abstract partial parsers `Parsers.number` and `Parsers.date`. Dates are any totally ordered integer encoding. The epoch reading of a number as a date is inside the abstract date parser.
- Id generation (`gerar_id`, uuid4): the new id is a parameter, and `App.FreshRowIsSaved` assumes it is fresh.
- The Streamlit UI: widgets, forms, `st.error`, `st.stop`, `st.success`, `st.experimental_rerun`, the sidebar navigation and `mostrar_filtro`/`inicializar_filtro`. The session's start and end dates are parameters. The rerun after each button is the end of the method.
- The rendering loops over `iterrows` (app.py:121, 167, 233): a button press on row k is a method taking k.
- Floating point: money and counts are `real`, so there is no rounding, NaN or infinity arithmetic. Formatting (`f"R$ {x:,.2f}"`, `hoje_str`) is not modelled.
- The DataFrame index and `reset_index`: rows are found by position, and the index label `contas[...].index[0]` is modelled as the first position with that id (`App.FirstIndexOfId`).
- `salvar_planilha` is not part of this model, because `utils.py` does not define it. Page saves are `salvar_csv_seguro` on the store's contract, as `App.Saved` states.
- App.Strip: `str.strip()` also removes Unicode whitespace beyond the ASCII space, tab, newline, carriage return, vertical tab and form feed that the model treats as blank.
- App.Atlas.AddBill: the form's `min_value=1` for the number of installments is a widget constraint and is not a precondition; any integer is accepted.
- Concurrency: two sessions writing the same file are not modelled.
