/** The profit calculator of the "Lucro de transações" screen: the revenue
    formula A/B/C/D, the real profit after acquirer costs, and the session's
    list of acquirers (`adquirentes`) with its add, remove and edit handlers. */
module Lucro {
  import opened Comum
  import opened Texto

  /** Share of the transacted volume kept as revenue (4.99 %). */
  const TAXA_TRANSACIONADO: real := 0.0499
  /** Revenue per paid transaction (R$ 2,50). */
  const TARIFA_TRANSACAO_PAGA: real := 2.5
  /** Revenue per withdrawal (R$ 10). */
  const TARIFA_SAQUE: real := 10.0

  /** The three totals typed into the form. */
  datatype DadosTransacao = DadosTransacao(
    totalTransicionado: real,
    totalTransacoesPagas: real,
    totalSaques: real)

  /** The `keyof DadosTransacao` that `handleInputChange` receives. */
  datatype CampoDados = TotalTransicionado | TotalTransacoesPagas | TotalSaques

  /** One payment acquirer; `custoTotal` is meant to equal
      `quantidadeTransacoes * custoPorTransacao`. */
  datatype Adquirente = Adquirente(
    id: string,
    nome: string,
    quantidadeTransacoes: real,
    custoTotal: real,
    custoPorTransacao: real)

  datatype ResultadosCalculo = ResultadosCalculo(
    valorA: real,
    valorB: real,
    valorC: real,
    valorD: real,
    lucroReal: real)

  /** `parseFloat(texto) || 0`: `None` is a text `parseFloat` reads as `NaN`. */
  function NumeroOuZero(p: Option<real>): (r: real)
    ensures p.Some? ==> r == p.value
    ensures r == 0.0 <==> p == None || p == Some(0.0)
  {
    match p
    case None => 0.0
    case Some(v) => v
  }

  // ---------------------------------------------------------------------
  // The form totals and `handleInputChange`

  /** Reads one field of the form totals. */
  function Campo(d: DadosTransacao, c: CampoDados): real
  {
    match c
    case TotalTransicionado => d.totalTransicionado
    case TotalTransacoesPagas => d.totalTransacoesPagas
    case TotalSaques => d.totalSaques
  }

  /** `{ ...prev, [campo]: numValue }`: the named field takes the parsed value
      (zero when unparsable) and every other field keeps its value. */
  function ComCampo(d: DadosTransacao, c: CampoDados, valor: Option<real>): (r: DadosTransacao)
    ensures Campo(r, c) == NumeroOuZero(valor)
    ensures forall outro: CampoDados :: outro != c ==> Campo(r, outro) == Campo(d, outro)
  {
    var v := NumeroOuZero(valor);
    match c
    case TotalTransicionado => d.(totalTransicionado := v)
    case TotalTransacoesPagas => d.(totalTransacoesPagas := v)
    case TotalSaques => d.(totalSaques := v)
  }

  // ---------------------------------------------------------------------
  // Aggregates over the acquirer list (the four `reduce` getters)

  function CustoTotalDe(a: Adquirente): real { a.custoTotal }
  function QuantidadeDe(a: Adquirente): real { a.quantidadeTransacoes }
  function CustoCalculadoDe(a: Adquirente): real { a.quantidadeTransacoes * a.custoPorTransacao }

  /** `getCustoTotalTransacoes`, and `getCustoTotalAdquirentes`, whose body is
      the same fold. With no negative cost, the total is not negative and no
      single acquirer costs more than the total. */
  function CustoTotalTransacoes(s: seq<Adquirente>): (r: real)
    ensures (forall i :: 0 <= i < |s| ==> s[i].custoTotal >= 0.0) ==>
              0.0 <= r && forall i :: 0 <= i < |s| ==> s[i].custoTotal <= r
  {
    SomaLimitada(s, CustoTotalDe);
    Soma(s, CustoTotalDe)
  }

  /** `getCustoTotalCalculado`: the cost recomputed from the two factors.
      With no negative factor, the total is not negative and no single
      acquirer's product exceeds it. */
  function CustoTotalCalculado(s: seq<Adquirente>): (r: real)
    ensures (forall i :: 0 <= i < |s| ==> s[i].quantidadeTransacoes >= 0.0 && s[i].custoPorTransacao >= 0.0) ==>
              0.0 <= r && forall i :: 0 <= i < |s| ==> s[i].quantidadeTransacoes * s[i].custoPorTransacao <= r
  {
    if forall i :: 0 <= i < |s| ==> s[i].quantidadeTransacoes >= 0.0 && s[i].custoPorTransacao >= 0.0 then
      assert forall i :: 0 <= i < |s| ==> CustoCalculadoDe(s[i]) >= 0.0;
      SomaLimitada(s, CustoCalculadoDe);
      Soma(s, CustoCalculadoDe)
    else
      Soma(s, CustoCalculadoDe)
  }

  /** `getTotalQuantidadeTransacoes`. With no negative quantity, the total is
      not negative and bounds each acquirer's quantity. */
  function TotalQuantidadeTransacoes(s: seq<Adquirente>): (r: real)
    ensures (forall i :: 0 <= i < |s| ==> s[i].quantidadeTransacoes >= 0.0) ==>
              0.0 <= r && forall i :: 0 <= i < |s| ==> s[i].quantidadeTransacoes <= r
  {
    SomaLimitada(s, QuantidadeDe);
    Soma(s, QuantidadeDe)
  }

  /** The stored cost of `a` agrees with its two factors. */
  predicate CustoDerivado(a: Adquirente)
  {
    a.custoTotal == a.quantidadeTransacoes * a.custoPorTransacao
  }

  predicate CustosDerivados(s: seq<Adquirente>)
  {
    forall i :: 0 <= i < |s| ==> CustoDerivado(s[i])
  }

  predicate IdsUnicos(s: seq<Adquirente>)
  {
    forall i, j :: 0 <= i < j < |s| ==> s[i].id != s[j].id
  }

  /** While every entry keeps its cost derived from its factors, the stored
      total cost and the recomputed total cost agree. */
  lemma {:induction false} CustosConsistentes(s: seq<Adquirente>)
    requires CustosDerivados(s)
    ensures CustoTotalTransacoes(s) == CustoTotalCalculado(s)
  {
    SomaPontual(s, CustoTotalDe, s, CustoCalculadoDe);
  }

  /** Appending an entry with a new id and a derived cost keeps ids unique
      and costs derived. */
  lemma AcrescentarPreserva(s: seq<Adquirente>, a: Adquirente)
    requires IdsUnicos(s) && CustosDerivados(s) && CustoDerivado(a)
    requires forall i :: 0 <= i < |s| ==> s[i].id != a.id
    ensures IdsUnicos(s + [a]) && CustosDerivados(s + [a])
  {
    var r := s + [a];
    forall i, j | 0 <= i < j < |r| ensures r[i].id != r[j].id {
      assert r[i] == s[i];
    }
  }

  /** Appending an entry adds its terms to the three aggregates. */
  lemma SomasAposAcrescentar(s: seq<Adquirente>, a: Adquirente)
    ensures CustoTotalTransacoes(s + [a]) == CustoTotalTransacoes(s) + a.custoTotal
    ensures TotalQuantidadeTransacoes(s + [a]) == TotalQuantidadeTransacoes(s) + a.quantidadeTransacoes
    ensures CustoTotalCalculado(s + [a]) == CustoTotalCalculado(s) + a.quantidadeTransacoes * a.custoPorTransacao
  {
    SomaAcrescentar(s, a, CustoTotalDe);
    SomaAcrescentar(s, a, QuantidadeDe);
    SomaAcrescentar(s, a, CustoCalculadoDe);
  }

  // ---------------------------------------------------------------------
  // `calcularResultados`

  /** The revenue breakdown and the real profit for the given totals and
      acquirers. Nothing is clamped: the profit is negative whenever the
      acquirers cost more than D. */
  function CalcularResultados(d: DadosTransacao, adquirentes: seq<Adquirente>): (r: ResultadosCalculo)
    ensures r.valorA == d.totalTransicionado * TAXA_TRANSACIONADO
    ensures r.valorB == d.totalTransacoesPagas * TARIFA_TRANSACAO_PAGA
    ensures r.valorC == d.totalSaques * TARIFA_SAQUE
    ensures r.valorD == r.valorA + r.valorB + r.valorC
    ensures r.lucroReal == r.valorD - CustoTotalTransacoes(adquirentes)
    ensures r.lucroReal < 0.0 <==> CustoTotalTransacoes(adquirentes) > r.valorD
  {
    var valorA := d.totalTransicionado * TAXA_TRANSACIONADO;
    var valorB := d.totalTransacoesPagas * TARIFA_TRANSACAO_PAGA;
    var valorC := d.totalSaques * TARIFA_SAQUE;
    var valorD := valorA + valorB + valorC;
    ResultadosCalculo(valorA, valorB, valorC, valorD, valorD - CustoTotalTransacoes(adquirentes))
  }

  /** With derived costs the real profit is D minus the sum of the products
      quantity × unit cost of all acquirers. */
  lemma LucroPorCustoCalculado(d: DadosTransacao, s: seq<Adquirente>)
    requires CustosDerivados(s)
    ensures CalcularResultados(d, s).lucroReal
            == d.totalTransicionado * 0.0499 + d.totalTransacoesPagas * 2.5 + d.totalSaques * 10.0
               - CustoTotalCalculado(s)
  {
    CustosConsistentes(s);
  }

  /** Adding an acquirer leaves A..D as they were and lowers the real profit
      by exactly the new acquirer's cost. */
  lemma LucroAposAcrescentar(d: DadosTransacao, s: seq<Adquirente>, a: Adquirente)
    ensures CalcularResultados(d, s + [a]).valorD == CalcularResultados(d, s).valorD
    ensures CalcularResultados(d, s + [a]).lucroReal == CalcularResultados(d, s).lucroReal - a.custoTotal
  {
    SomasAposAcrescentar(s, a);
  }

  /** A sample calculation: 10000 transacted, 50 paid transactions, 10
      withdrawals and one acquirer with 50 transactions at 1.50 each. */
  lemma CenarioExemplo()
    ensures CalcularResultados(DadosTransacao(10000.0, 50.0, 10.0),
                               [Adquirente("1", "Adquirente Principal", 50.0, 75.0, 1.5)])
            == ResultadosCalculo(499.0, 125.0, 100.0, 724.0, 649.0)
  {
    var s := [Adquirente("1", "Adquirente Principal", 50.0, 75.0, 1.5)];
    assert s[..0] == [];
    assert CustoTotalTransacoes(s) == 75.0;
  }

  // ---------------------------------------------------------------------
  // `handleEditarAdquirente`

  /** The edits the screen offers: the name, the quantity and the unit cost
      (the total cost is read-only and the id is never edited). Numeric
      values arrive as text and are parsed with `parseFloat(...) || 0`. */
  datatype Edicao =
    | Nome(nome: string)
    | QuantidadeTransacoes(valor: Option<real>)
    | CustoPorTransacao(valor: Option<real>)

  /** The edit applied to one matching entry. A factor edit sets that factor
      and recomputes the total cost from the new value and the other factor's
      old value, so it always leaves a derived cost; a name edit touches
      neither the factors nor the total cost. */
  function AplicarEdicao(a: Adquirente, e: Edicao): (b: Adquirente)
    ensures b.id == a.id
    ensures e.Nome? ==> b == a.(nome := e.nome)
    ensures e.QuantidadeTransacoes? ==>
              b == a.(quantidadeTransacoes := NumeroOuZero(e.valor),
                      custoTotal := NumeroOuZero(e.valor) * a.custoPorTransacao)
    ensures e.CustoPorTransacao? ==>
              b == a.(custoPorTransacao := NumeroOuZero(e.valor),
                      custoTotal := a.quantidadeTransacoes * NumeroOuZero(e.valor))
    ensures !e.Nome? ==> CustoDerivado(b)
    ensures CustoDerivado(a) ==> CustoDerivado(b)
  {
    match e
    case Nome(n) => a.(nome := n)
    case QuantidadeTransacoes(p) =>
      var q := NumeroOuZero(p);
      a.(quantidadeTransacoes := q, custoTotal := q * a.custoPorTransacao)
    case CustoPorTransacao(p) =>
      var c := NumeroOuZero(p);
      a.(custoPorTransacao := c, custoTotal := a.quantidadeTransacoes * c)
  }

  /** `adquirentes.map(adq => adq.id === id ? <edited> : adq)`: the entries
      carrying `id` are edited and every other entry stays as it was. */
  function EditarLista(s: seq<Adquirente>, id: string, e: Edicao): (r: seq<Adquirente>)
    ensures |r| == |s|
    ensures forall i :: 0 <= i < |s| ==> r[i] == (if s[i].id == id then AplicarEdicao(s[i], e) else s[i])
  {
    if s == [] then []
    else [if s[0].id == id then AplicarEdicao(s[0], e) else s[0]] + EditarLista(s[1..], id, e)
  }

  /** An edit keeps the ids and the order, keeps ids unique and costs
      derived, and changes nothing when no entry carries `id`. */
  lemma EditarListaPreserva(s: seq<Adquirente>, id: string, e: Edicao)
    ensures forall i :: 0 <= i < |s| ==> EditarLista(s, id, e)[i].id == s[i].id
    ensures IdsUnicos(s) ==> IdsUnicos(EditarLista(s, id, e))
    ensures CustosDerivados(s) ==> CustosDerivados(EditarLista(s, id, e))
    ensures (forall i :: 0 <= i < |s| ==> s[i].id != id) ==> EditarLista(s, id, e) == s
  {
    var r := EditarLista(s, id, e);
    forall i | 0 <= i < |s| ensures r[i].id == s[i].id {
      assert r[i] == (if s[i].id == id then AplicarEdicao(s[i], e) else s[i]);
    }
    if IdsUnicos(s) {
      forall i, j | 0 <= i < j < |r| ensures r[i].id != r[j].id {
        assert r[i].id == s[i].id && r[j].id == s[j].id;
      }
    }
    if CustosDerivados(s) {
      forall i | 0 <= i < |r| ensures CustoDerivado(r[i]) {
        assert CustoDerivado(s[i]);
      }
    }
    if forall i :: 0 <= i < |s| ==> s[i].id != id {
      assert forall i :: 0 <= i < |s| ==> r[i] == s[i];
    }
  }

  // ---------------------------------------------------------------------
  // `handleRemoverAdquirente`

  /** `adquirentes.filter(adq => adq.id !== id)`: the survivors are the entries
      whose id differs, in their original order. */
  function SemId(s: seq<Adquirente>, id: string): (r: seq<Adquirente>)
    ensures |r| <= |s|
    ensures forall a :: a in r <==> a in s && a.id != id
    ensures (forall i :: 0 <= i < |s| ==> s[i].id != id) ==> r == s
  {
    if s == [] then []
    else (if s[0].id == id then [] else [s[0]]) + SemId(s[1..], id)
  }

  /** The tail of a list with unique ids has unique ids, none of them the
      head's. */
  lemma IdsUnicosCauda(s: seq<Adquirente>)
    requires s != [] && IdsUnicos(s)
    ensures IdsUnicos(s[1..])
    ensures forall j :: 0 <= j < |s[1..]| ==> s[1..][j].id != s[0].id
  {
    var t := s[1..];
    forall i, j | 0 <= i < j < |t| ensures t[i].id != t[j].id {
      assert t[i] == s[i + 1] && t[j] == s[j + 1];
    }
    forall j | 0 <= j < |t| ensures t[j].id != s[0].id {
      assert t[j] == s[j + 1];
    }
  }

  /** With unique ids, filtering out the id of entry `k` removes exactly that
      entry and keeps the others in order. */
  lemma {:induction false} SemIdRemoveUm(s: seq<Adquirente>, id: string, k: nat)
    requires IdsUnicos(s) && k < |s| && s[k].id == id
    ensures SemId(s, id) == s[..k] + s[k + 1..]
    decreases |s|
  {
    var t := s[1..];
    IdsUnicosCauda(s);
    if k == 0 {
      assert SemId(s, id) == SemId(t, id);
      assert s[..0] + s[1..] == t;
    } else {
      assert s[0].id != id;
      SemIdRemoveUm(t, id, k - 1);
      assert SemId(s, id) == [s[0]] + SemId(t, id);
      ConsSemPosicao(s, k);
    }
  }

  /** With unique ids and more than one entry, removal never empties the list. */
  lemma SemIdNaoEsvazia(s: seq<Adquirente>, id: string)
    requires IdsUnicos(s) && |s| > 1
    ensures |SemId(s, id)| >= |s| - 1 >= 1
    ensures IdsUnicos(SemId(s, id))
  {
    if k :| 0 <= k < |s| && s[k].id == id {
      SemIdRemoveUm(s, id, k);
    }
    IdsUnicosSemId(s, id);
  }

  /** Filtering keeps ids unique. */
  lemma {:induction false} IdsUnicosSemId(s: seq<Adquirente>, id: string)
    requires IdsUnicos(s)
    ensures IdsUnicos(SemId(s, id))
    decreases |s|
  {
    if s != [] {
      var t := s[1..];
      IdsUnicosCauda(s);
      IdsUnicosSemId(t, id);
      var r := SemId(t, id);
      forall x | x in r ensures x.id != s[0].id {
        var j :| 0 <= j < |t| && t[j] == x;
      }
      var h := if s[0].id == id then [] else [s[0]];
      assert SemId(s, id) == h + r;
      forall i, j | 0 <= i < j < |h + r| ensures (h + r)[i].id != (h + r)[j].id {
        if h != [] && i == 0 {
          assert (h + r)[j] == r[j - 1];
          assert r[j - 1] in r;
        }
      }
    }
  }

  /** Removing the entry `k` by its (unique) id raises the real profit by
      that entry's cost and lowers the aggregates by its terms. */
  lemma LucroAposRemover(d: DadosTransacao, s: seq<Adquirente>, k: nat)
    requires IdsUnicos(s) && k < |s|
    ensures CustoTotalTransacoes(SemId(s, s[k].id)) == CustoTotalTransacoes(s) - s[k].custoTotal
    ensures TotalQuantidadeTransacoes(SemId(s, s[k].id)) == TotalQuantidadeTransacoes(s) - s[k].quantidadeTransacoes
    ensures CalcularResultados(d, SemId(s, s[k].id)).lucroReal == CalcularResultados(d, s).lucroReal + s[k].custoTotal
  {
    SemIdRemoveUm(s, s[k].id, k);
    SomaSemPosicao(s, k, CustoTotalDe);
    SomaSemPosicao(s, k, QuantidadeDe);
  }

  // ---------------------------------------------------------------------
  // The "new acquirer" dialog and `handleAdicionarAdquirente`

  /** The dialog's form (`novoAdquirente`); its numeric fields already hold
      `parseFloat(...) || 0` of what was typed. */
  datatype Rascunho = Rascunho(nome: string, quantidadeTransacoes: real, custoPorTransacao: real)

  const RASCUNHO_VAZIO: Rascunho := Rascunho("", 0.0, 0.0)

  /** The entry `handleAdicionarAdquirente` builds from the form: the name as
      typed (not trimmed) and a cost derived from the two factors. */
  function NovoAdquirente(id: string, r: Rascunho): (a: Adquirente)
    ensures a.id == id && a.nome == r.nome
    ensures a.quantidadeTransacoes == r.quantidadeTransacoes && a.custoPorTransacao == r.custoPorTransacao
    ensures CustoDerivado(a)
  {
    Adquirente(id, r.nome, r.quantidadeTransacoes,
               r.quantidadeTransacoes * r.custoPorTransacao, r.custoPorTransacao)
  }

  /** The session state of the screen: the form totals, the acquirer list and
      the "new acquirer" form. The results are not stored: they are
      `CalcularResultados(dados, adquirentes)` at any moment. */
  class SessaoLucro {
    var dados: DadosTransacao
    var adquirentes: seq<Adquirente>
    var rascunho: Rascunho

    /** At least one acquirer, ids unique, every cost derived. */
    ghost predicate Valid()
      reads this
    {
      |adquirentes| >= 1 && IdsUnicos(adquirentes) && CustosDerivados(adquirentes)
    }

    /** The initial state: zero totals, one zeroed "Adquirente Principal"
        with id "1", an empty form. */
    constructor ()
      ensures Valid()
      ensures dados == DadosTransacao(0.0, 0.0, 0.0)
      ensures adquirentes == [Adquirente("1", "Adquirente Principal", 0.0, 0.0, 0.0)]
      ensures rascunho == RASCUNHO_VAZIO
    {
      dados := DadosTransacao(0.0, 0.0, 0.0);
      adquirentes := [Adquirente("1", "Adquirente Principal", 0.0, 0.0, 0.0)];
      rascunho := RASCUNHO_VAZIO;
    }

    /** `handleInputChange`: only the named total changes. */
    method AlterarDado(c: CampoDados, valor: Option<real>)
      requires Valid()
      modifies this
      ensures Valid()
      ensures dados == ComCampo(old(dados), c, valor)
      ensures adquirentes == old(adquirentes) && rascunho == old(rascunho)
    {
      dados := ComCampo(dados, c, valor);
    }

    /** The `onChange` handlers of the dialog's three inputs. */
    method EditarRascunho(e: Edicao)
      requires Valid()
      modifies this
      ensures Valid()
      ensures rascunho == match e
                          case Nome(n) => old(rascunho).(nome := n)
                          case QuantidadeTransacoes(p) => old(rascunho).(quantidadeTransacoes := NumeroOuZero(p))
                          case CustoPorTransacao(p) => old(rascunho).(custoPorTransacao := NumeroOuZero(p))
      ensures dados == old(dados) && adquirentes == old(adquirentes)
    {
      match e
      case Nome(n) => rascunho := rascunho.(nome := n);
      case QuantidadeTransacoes(p) => rascunho := rascunho.(quantidadeTransacoes := NumeroOuZero(p));
      case CustoPorTransacao(p) => rascunho := rascunho.(custoPorTransacao := NumeroOuZero(p));
    }

    /** `handleAdicionarAdquirente`; `novoId` stands for `Date.now()`. A blank
        name changes nothing; otherwise one entry built from the form is
        appended, the earlier entries are untouched, the totals grow by its
        terms and the form is cleared. */
    method AdicionarAdquirente(novoId: string) returns (adicionado: bool)
      requires Valid()
      requires forall i :: 0 <= i < |adquirentes| ==> adquirentes[i].id != novoId
      modifies this
      ensures Valid()
      ensures adicionado <==> !EmBranco(old(rascunho).nome)
      ensures adicionado ==> adquirentes == old(adquirentes) + [NovoAdquirente(novoId, old(rascunho))]
      ensures adicionado ==> rascunho == RASCUNHO_VAZIO
      ensures adicionado ==> CustoTotalTransacoes(adquirentes)
                             == CustoTotalTransacoes(old(adquirentes)) + adquirentes[|adquirentes| - 1].custoTotal
      ensures !adicionado ==> adquirentes == old(adquirentes) && rascunho == old(rascunho)
      ensures dados == old(dados)
    {
      adicionado := !EmBranco(rascunho.nome);
      if adicionado {
        var novo := NovoAdquirente(novoId, rascunho);
        SomasAposAcrescentar(adquirentes, novo);
        AcrescentarPreserva(adquirentes, novo);
        adquirentes := adquirentes + [novo];
        rascunho := RASCUNHO_VAZIO;
      }
    }

    /** `handleRemoverAdquirente`: rejected when a single entry is left;
        otherwise the entries with that id are filtered out. The list never
        becomes empty. */
    method RemoverAdquirente(id: string) returns (removido: bool)
      requires Valid()
      modifies this
      ensures Valid()
      ensures removido <==> |old(adquirentes)| > 1
      ensures removido ==> adquirentes == SemId(old(adquirentes), id)
      ensures !removido ==> adquirentes == old(adquirentes)
      ensures dados == old(dados) && rascunho == old(rascunho)
    {
      removido := |adquirentes| > 1;
      if removido {
        SemIdNaoEsvazia(adquirentes, id);
        adquirentes := SemId(adquirentes, id);
      }
    }

    /** `handleEditarAdquirente` restricted to the fields the screen edits. */
    method EditarAdquirente(id: string, e: Edicao)
      requires Valid()
      modifies this
      ensures Valid()
      ensures adquirentes == EditarLista(old(adquirentes), id, e)
      ensures CustoTotalTransacoes(adquirentes) == CustoTotalCalculado(adquirentes)
      ensures dados == old(dados) && rascunho == old(rascunho)
    {
      var novos := EditarLista(adquirentes, id, e);
      EditarListaPreserva(adquirentes, id, e);
      CustosConsistentes(novos);
      adquirentes := novos;
    }
  }
}
