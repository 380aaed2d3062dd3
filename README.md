# Cash-desk profit calculator and daily chart, in Dafny

This project models the two pieces of client-side business logic of the
cash-desk application. It proves properties about each.

- **Profit calculator ("Lucro de transações")**, in `lucro.dfy`, `texto.dfy` and `paginacao.dfy`.
  - The revenue breakdown:
    - A = total transacted × 0.0499;
    - B = paid transactions × R$ 2,50;
    - C = withdrawals × R$ 10;
    - D = A + B + C.
  - The real profit, D minus the acquirers' total cost. It is not clamped and can be negative.
  - The session's list of payment acquirers (`adquirentes`), held in the class `SessaoLucro` together with the form totals and the "new acquirer" form.
    - Add is refused when the name is blank after `trim`.
    - Remove is refused when only one acquirer is left.
    - An edit of either factor recomputes `custoTotal = quantidadeTransacoes × custoPorTransacao`.
    - The class invariant is: at least one acquirer, unique ids, every cost derived from its factors. Under it, the stored total cost equals the recomputed one.
  - The four `reduce` aggregates.
  - The pager of saved calculations: `ceil(n / 10)` pages, each a JavaScript `slice` of at most ten items. Reading every page in turn gives back the whole list.
- **Daily chart of the dashboard**, in `grafico.dfy`.
  - Inflow and outflow records are grouped by their `dd/MM` label. Two imperative loops do this over a map, keeping the order in which the labels were first met.
  - Each label is summed per side and turned into a row whose `saldo` is inflow minus outflow.
  - The rows are sorted by month and then by day.
  - The model proves several facts about the result:
    - there is one row per label found in either list;
    - each row holds that label's sums;
    - the rows are strictly ascending;
    - the inflow and outflow columns add up to the totals of the two lists (conservation);
    - the year plays no part in the label.

`comum.dfy` holds the shared left fold `Soma`, which models `xs.reduce((sum, x) => sum + f(x), 0)`, and its lemmas.

The pager does not sort saved calculations: it slices the list in the order the server returns it (src/components/lucro/lucro-transacoes.tsx:133-141), and so does the model.

## Model

| member | source | states |
|---|---|---|
| Comum.Soma | src/components/lucro/lucro-transacoes.tsx:106 | `xs.reduce((sum, x) => sum + f(x), 0)` as a left fold over exact reals; its laws are the lemmas below it (`SomaLimitada`, `SomaAcrescentar`, `SomaSemPosicao`, `SomaPontual`) |
| Comum.SomaLimitada | src/components/lucro/lucro-transacoes.tsx:218-228 | A fold of non-negative terms is non-negative and no smaller than any single term |
| Comum.SomaAcrescentar | src/components/lucro/lucro-transacoes.tsx:172 | Appending one element to the folded list adds exactly its term to the sum |
| Lucro.NumeroOuZero | src/components/lucro/lucro-transacoes.tsx:151 | `parseFloat(value)` with zero in place of a falsy result: a parsed number is kept, and the result is zero exactly when the text does not parse or parses as zero |
| Lucro.CustoTotalTransacoes | src/components/lucro/lucro-transacoes.tsx:218-220 | `getCustoTotalTransacoes` (and `getCustoTotalAdquirentes` at lines 230-232, the same fold): with no negative cost, the total is not negative and bounds every acquirer's cost |
| Lucro.CustoTotalCalculado | src/components/lucro/lucro-transacoes.tsx:222-224 | `getCustoTotalCalculado`: with no negative factor, the total is not negative and bounds every acquirer's quantity × unit cost |
| Lucro.TotalQuantidadeTransacoes | src/components/lucro/lucro-transacoes.tsx:226-228 | `getTotalQuantidadeTransacoes`: with no negative quantity, the total is not negative and bounds every acquirer's quantity |
| Lucro.AcrescentarPreserva | src/components/lucro/lucro-transacoes.tsx:164-172 | Appending an entry with a new id and a derived cost keeps ids unique and every cost derived |
| Texto.Apara | src/components/lucro/lucro-transacoes.tsx:159 | `nome.trim()`, trimming the start and then the end; its meaning is stated by `AparaVazioSseSoEspacos` |
| Texto.EmBranco | src/components/lucro/lucro-transacoes.tsx:159 | The name is refused exactly when every character of it is white space |
| Grafico.ChaveDe | src/components/dashboard/dashboard-novo.tsx:133 | The `dd/MM` label of a record, its day and month; `AnoIgnorado` states that the year plays no part |
| Grafico.Comparar | src/components/dashboard/dashboard-novo.tsx:154-160 | The comparator is negative exactly when the first label comes earlier by (month, day), positive exactly when it comes later, and zero only for equal labels |
| Grafico.Linhas | src/components/dashboard/dashboard-novo.tsx:149-153 | `Object.entries(...).map(...)` in key order; its properties are stated by `LinhasPropriedades` |
| Lucro.ComCampo | src/components/lucro/lucro-transacoes.tsx:150-156 | The named form total takes the parsed number, or zero when the text does not parse; the other two totals keep their values |
| Lucro.SessaoLucro.AlterarDado | src/components/lucro/lucro-transacoes.tsx:150-156 | `handleInputChange` replaces `dados` by the one-field update and changes neither the acquirers nor the form; the invariant holds |
| Lucro.CalcularResultados | src/components/lucro/lucro-transacoes.tsx:92-118 | A = t × 0.0499, B = p × 2.50, C = s × 10, D = A + B + C, real profit = D − Σ custoTotal; the profit is negative exactly when the costs exceed D |
| Lucro.CenarioExemplo | src/components/lucro/lucro-transacoes.tsx:92-109 | 10000 transacted, 50 paid, 10 withdrawals, one acquirer costing 75 give A 499, B 125, C 100, D 724, profit 649 |
| Lucro.CustosConsistentes | src/components/lucro/lucro-transacoes.tsx:218-224 | When every cost is derived from its factors, `getCustoTotalTransacoes` equals `getCustoTotalCalculado` |
| Lucro.LucroPorCustoCalculado | src/components/lucro/lucro-transacoes.tsx:106-109 | With derived costs, the real profit is D minus Σ quantity × unit cost |
| Lucro.SomasAposAcrescentar | src/components/lucro/lucro-transacoes.tsx:218-228 | Appending an acquirer raises the stored cost, quantity and computed cost aggregates by exactly its own terms |
| Lucro.LucroAposAcrescentar | src/components/lucro/lucro-transacoes.tsx:103-109 | Appending an acquirer leaves D unchanged and lowers the real profit by its `custoTotal` |
| Lucro.NovoAdquirente | src/components/lucro/lucro-transacoes.tsx:160-170 | The new entry carries the given id, the name as typed and both factors from the form, with a derived total cost |
| Lucro.SessaoLucro.AdicionarAdquirente | src/components/lucro/lucro-transacoes.tsx:158-182 | Added exactly when the trimmed name is non-empty; then one entry is appended after the unchanged earlier ones, the form is cleared and the cost total grows by its cost; otherwise nothing changes; the invariant holds |
| Lucro.SessaoLucro.EditarRascunho | src/components/lucro/lucro-transacoes.tsx:412-438 | Each input of the "new acquirer" dialog sets only its own form field, numbers parsed with zero for unparsable text |
| Texto.AparaInicio | src/components/lucro/lucro-transacoes.tsx:159 | The result is a suffix of the input; what was cut is all white space; the result is empty or starts with a non-space |
| Texto.AparaFim | src/components/lucro/lucro-transacoes.tsx:159 | The result is a prefix of the input; what was cut is all white space; the result is empty or ends with a non-space |
| Texto.AparaVazioSseSoEspacos | src/components/lucro/lucro-transacoes.tsx:159 | `trim()` is empty if and only if the name is all white space; otherwise it is a slice of the name that starts and ends with a non-space |
| Lucro.SemId | src/components/lucro/lucro-transacoes.tsx:186 | `filter(adq => adq.id !== id)` keeps exactly the entries whose id differs, and keeps the list as it was when no entry has that id |
| Lucro.SemIdRemoveUm | src/components/lucro/lucro-transacoes.tsx:186 | With unique ids, filtering out the id of entry k removes that entry only and keeps the others in order |
| Lucro.IdsUnicosSemId | src/components/lucro/lucro-transacoes.tsx:186 | Filtering keeps ids unique |
| Lucro.SemIdNaoEsvazia | src/components/lucro/lucro-transacoes.tsx:184-191 | With unique ids and more than one entry, a removal leaves at least one entry, and at most one entry goes |
| Lucro.LucroAposRemover | src/components/lucro/lucro-transacoes.tsx:186 | Removing entry k lowers the cost and quantity aggregates by its terms and raises the real profit by its cost |
| Lucro.SessaoLucro.RemoverAdquirente | src/components/lucro/lucro-transacoes.tsx:184-191 | Removal happens exactly when more than one entry exists, and leaves the filtered list; otherwise the list is unchanged; the invariant (never empty) holds |
| Lucro.AplicarEdicao | src/components/lucro/lucro-transacoes.tsx:195-212 | A factor edit sets that factor and recomputes the cost from the new value and the other factor's old value; a name edit changes only the name; the id is kept and a derived cost stays derived |
| Lucro.EditarLista | src/components/lucro/lucro-transacoes.tsx:194-215 | Same length; the entries with the id are edited and every other entry is unchanged |
| Lucro.EditarListaPreserva | src/components/lucro/lucro-transacoes.tsx:193-216 | An edit keeps every id in place and ids unique, keeps costs derived, and is a no-op for an unknown id |
| Lucro.SessaoLucro.EditarAdquirente | src/components/lucro/lucro-transacoes.tsx:193-216 | The list becomes the edited list; after it, the stored total cost equals the computed one; the invariant holds |
| Lucro.SessaoLucro.constructor | src/components/lucro/lucro-transacoes.tsx:50-77 | Zero totals, a single zeroed "Adquirente Principal" with id "1", an empty form |
| Paginacao.TotalPaginas | src/components/lucro/lucro-transacoes.tsx:134-135 | `Math.ceil(n / 10)`: the least page count whose pages hold every item |
| Paginacao.Limite | src/components/lucro/lucro-transacoes.tsx:141 | A `slice` bound: a negative bound counts from the end, and the bound is clamped to the list |
| Paginacao.Fatia | src/components/lucro/lucro-transacoes.tsx:141 | `slice(i, j)` is the stretch between the two normalised bounds, empty when they cross |
| Paginacao.Pagina | src/components/lucro/lucro-transacoes.tsx:139-141 | Page p holds at most 10 items; from page 1 on it is items (p−1)·10 up to min(n, p·10); pages 1..totalPaginas are non-empty and later pages are empty |
| Paginacao.PaginasPrefixo | src/components/lucro/lucro-transacoes.tsx:139-141 | Pages 1..k placed one after another are the first min(n, 10k) items |
| Paginacao.PaginasCobremTudo | src/components/lucro/lucro-transacoes.tsx:133-141 | Pages 1..totalPaginas together give back the whole list, each item once and in order |
| Grafico.AnoIgnorado | src/components/dashboard/dashboard-novo.tsx:133-141 | Two records with the same day and month but different years get the same label, and their amounts are added together |
| Grafico.ChavesAcrescentar | src/components/dashboard/dashboard-novo.tsx:133-136 | Folding in one more record adds exactly its label to the labels met |
| Grafico.SomaPorChaveAcrescentar | src/components/dashboard/dashboard-novo.tsx:137 | One more record adds its amount to its own label's sum and nothing to any other label |
| Grafico.SomaPorChaveAusente | src/components/dashboard/dashboard-novo.tsx:134-135 | A label that no record of a list carries has sum zero on that list's side |
| Grafico.Acumular | src/components/dashboard/dashboard-novo.tsx:133-137 | One `forEach` step creates the label with zero sums if it is missing (appending it to the key order), adds the amount to one side, and leaves every other label unchanged |
| Grafico.PassoChaves | src/components/dashboard/dashboard-novo.tsx:132-138 | One step keeps "the labels are the initial ones plus those of the records seen so far" |
| Grafico.PassoChave | src/components/dashboard/dashboard-novo.tsx:132-138 | For one label, one step keeps "the initial value plus the sum of the records seen so far" |
| Grafico.PassoSomarLista | src/components/dashboard/dashboard-novo.tsx:132-138 | One step keeps "each label holds its initial value plus the sum of the records seen so far", for every label at once |
| Grafico.SomarLista | src/components/dashboard/dashboard-novo.tsx:132-146 | After one `forEach`, the labels are the initial ones plus those of the list, each holding its initial value plus the list's per-label sum on its side; the key order lists each label once |
| Grafico.Agrupar | src/components/dashboard/dashboard-novo.tsx:129-146 | `dadosAgrupados` has exactly the labels of either list, each holding the inflow sum and the outflow sum under it; the key order lists each label once |
| Grafico.Inserir | src/components/dashboard/dashboard-novo.tsx:154-160 | Inserting a row into sorted rows by the comparator gives sorted rows with the same multiset plus that row |
| Grafico.InserirDistintas | src/components/dashboard/dashboard-novo.tsx:154-160 | Inserting a row with a new label keeps labels distinct |
| Grafico.Ordenar | src/components/dashboard/dashboard-novo.tsx:154-160 | The sort returns a permutation of the rows, ordered by (month, day) |
| Grafico.OrdenarDistintas | src/components/dashboard/dashboard-novo.tsx:154-160 | Sorting keeps labels distinct |
| Grafico.SomaInserir | src/components/dashboard/dashboard-novo.tsx:154-160 | Inserting a row adds its term to any sum over the rows |
| Grafico.SomaOrdenar | src/components/dashboard/dashboard-novo.tsx:154-160 | Sorting leaves every sum over the rows unchanged |
| Grafico.LinhasPropriedades | src/components/dashboard/dashboard-novo.tsx:149-154 | `Object.entries(...).map(...)` gives one row per key, carrying that key's sums and `saldo = entradas − saidas`, with distinct labels when the keys are distinct |
| Grafico.EstritaSeDistintas | src/components/dashboard/dashboard-novo.tsx:154-160 | Sorted rows with distinct labels are strictly ascending by (month, day) |
| Grafico.ParaGrafico | src/components/dashboard/dashboard-novo.tsx:149-160 | One row per key, each with its sums and balance, ordered by (month, day), and strictly ascending when the keys are distinct |
| Grafico.Conservacao | src/components/dashboard/dashboard-novo.tsx:132-146 | Summing the per-label sums over all labels, each counted once, gives the plain sum of a list's amounts |
| Grafico.LinhasSomam | src/components/dashboard/dashboard-novo.tsx:149-153 | The inflow and outflow columns of the rows sum to the per-label sums over the keys |
| Grafico.DadosGrafico | src/components/dashboard/dashboard-novo.tsx:129-160 | The chart rows cover exactly the labels of either list (no zero-filled days), each row's sums and balance are right, the rows are strictly ascending by (month, day), and the two columns add up to the totals of the two lists |

## Left out

- Network I/O is not modelled: the HTTP calls, the `Promise.all` join of the two chart fetches and the `success` gate in front of the chart (src/components/dashboard/dashboard-novo.tsx:120-127). The chart starts from the two record lists.
- The saving of a calculation (`confirmarSalvarTransacao`) is not modelled. It is an asynchronous call to the server.
- React's `useEffect` re-run triggers are not modelled. The results are not a stored field: they are `CalcularResultados(dados, adquirentes)` of the current state.
- Toast messages, dialog open/close flags and `Intl.NumberFormat` currency formatting are presentation only and are not modelled.
- Date parsing is not modelled: `new Date(data)`, the time zone and date-fns `format(..., 'dd/MM')` are abstracted. Each record already carries its calendar (year, month, day). The label is the (day, month) pair, which keeps what the two-digit text label distinguishes.
- `parseFloat` is not modelled on text: the model receives its outcome as an optional number. Reading a number prefix of a longer text (`"12abc"` gives 12), `Infinity` and the other details of the text grammar are outside the model.
- A record whose `data` is not a valid date is not modelled. `format(new Date(...))` throws on it, and the `catch` at src/components/dashboard/dashboard-novo.tsx:164-166 keeps the previous chart.
- Amounts are exact reals. IEEE-754 double rounding is not modelled, and neither is string concatenation by `+=` when a server amount arrives as text.
- Lucro.SessaoLucro.AdicionarAdquirente: `Date.now().toString()` is replaced by an id parameter. The method requires that no entry already uses that id, which is what keeps ids unique.
- Lucro.SessaoLucro.EditarAdquirente: edits of `custoTotal` and of `id` are not modelled. The handler's type allows them, but the screen never makes them because the cost field is read-only.
- Grafico.Ordenar: `Array.prototype.sort` is modelled as an insertion sort by the same comparator. Because the keys of an object are distinct, every sort that respects the comparator gives the same rows.
- The order of JavaScript object keys is taken to be insertion order. This holds for labels like `05/03`, which are not array indices.
- Paginacao.TotalPaginas: the state starts at 1 page before the first fetch. For an empty list, `Math.ceil(0 / 10)` then sets it to 0, and the model gives 0 as the code does.
