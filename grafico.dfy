/** The dashboard's daily chart: inflow and outflow records are grouped by
    their `dd/MM` label, summed per label, turned into chart rows with the
    balance of the day, and sorted by month and then day. */
module Grafico {
  import opened Comum

  /** An inflow or outflow record as the chart reads it: the calendar date of
      its `data` field, split into year, month and day, and its amount. */
  datatype Registro = Registro(ano: int, mes: int, dia: int, valor: real)

  /** The `dd/MM` label a record is grouped under. */
  datatype Chave = Chave(dia: int, mes: int)

  /** `format(new Date(r.data), 'dd/MM')`: the year plays no part. */
  function ChaveDe(r: Registro): Chave
  {
    Chave(r.dia, r.mes)
  }

  /** The running sums kept per label in `dadosAgrupados`. */
  datatype Totais = Totais(entradas: real, saidas: real)

  /** One `ChartData` row. */
  datatype LinhaGrafico = LinhaGrafico(date: Chave, entradas: real, saidas: real, saldo: real)

  function Valor(r: Registro): real { r.valor }
  function EntradasDe(l: LinhaGrafico): real { l.entradas }
  function SaidasDe(l: LinhaGrafico): real { l.saidas }

  /** The amount a record contributes to the label `k`. */
  function NaChave(k: Chave): Registro -> real
  {
    r => if ChaveDe(r) == k then r.valor else 0.0
  }

  /** The sum of the amounts of the records labelled `k`. */
  function SomaPorChave(rs: seq<Registro>, k: Chave): real
  {
    Soma(rs, NaChave(k))
  }

  /** Label to its sum over `rs`. */
  function PorChave(rs: seq<Registro>): Chave -> real
  {
    k => SomaPorChave(rs, k)
  }

  /** The labels that occur in `rs`. */
  function Chaves(rs: seq<Registro>): set<Chave>
  {
    set r | r in rs :: ChaveDe(r)
  }

  lemma ChavesAcrescentar(rs: seq<Registro>, r: Registro)
    ensures Chaves(rs + [r]) == Chaves(rs) + {ChaveDe(r)}
  {
    assert forall x :: x in rs + [r] <==> x in rs || x == r;
  }

  lemma SomaPorChaveAcrescentar(rs: seq<Registro>, r: Registro, k: Chave)
    ensures SomaPorChave(rs + [r], k) == SomaPorChave(rs, k) + (if ChaveDe(r) == k then r.valor else 0.0)
  {
    assert (rs + [r])[..|rs|] == rs;
  }

  /** A label that no record carries sums to zero. */
  lemma SomaPorChaveAusente(rs: seq<Registro>, k: Chave)
    requires k !in Chaves(rs)
    ensures SomaPorChave(rs, k) == 0.0
  {
    forall i | 0 <= i < |rs| ensures NaChave(k)(rs[i]) == 0.0 {
      assert ChaveDe(rs[i]) in Chaves(rs);
    }
    SomaZero(rs, NaChave(k));
  }

  /** Records of the same day and month land under the same label whatever
      their years, so their amounts are added together. */
  lemma AnoIgnorado(r1: Registro, r2: Registro)
    requires r1.dia == r2.dia && r1.mes == r2.mes && r1.ano != r2.ano
    ensures ChaveDe(r1) == ChaveDe(r2)
    ensures SomaPorChave([r1, r2], ChaveDe(r1)) == r1.valor + r2.valor
  {
    SomaPorChaveAcrescentar([r1], r2, ChaveDe(r1));
    SomaPorChaveAcrescentar([], r1, ChaveDe(r1));
    assert [r1, r2] == [r1] + [r2];
    assert [r1] == [] + [r1];
  }

  // ---------------------------------------------------------------------
  // Grouping: the two `forEach` loops over `dadosAgrupados`

  /** What a label held before a list was folded in (zero sums when the
      label was not there yet). */
  function Anterior(m: map<Chave, Totais>, c: Chave): Totais
  {
    if c in m then m[c] else Totais(0.0, 0.0)
  }

  /** `t` with `v` added to its inflow side or to its outflow side. */
  function Somado(t: Totais, v: real, entrada: bool): Totais
  {
    if entrada then t.(entradas := t.entradas + v) else t.(saidas := t.saidas + v)
  }

  /** One `forEach` step of either list: label `k` is created with zero sums
      if missing (and then takes the last place in the key order), and
      `valor` is added to its inflow or outflow side; no other label changes. */
  method Acumular(agrupados: map<Chave, Totais>, ordem: seq<Chave>, k: Chave, valor: real, entrada: bool)
    returns (agrupados': map<Chave, Totais>, ordem': seq<Chave>)
    requires Distintos(ordem) && forall c :: c in ordem <==> c in agrupados
    ensures Distintos(ordem') && forall c :: c in ordem' <==> c in agrupados'
    ensures ordem' == if k in agrupados then ordem else ordem + [k]
    ensures agrupados'.Keys == agrupados.Keys + {k}
    ensures forall c :: c in agrupados' ==>
              agrupados'[c] == if c == k then Somado(Anterior(agrupados, k), valor, entrada) else agrupados[c]
  {
    agrupados', ordem' := agrupados, ordem;
    if k !in agrupados' {
      agrupados' := agrupados'[k := Totais(0.0, 0.0)];
      ordem' := ordem' + [k];
    }
    var t := agrupados'[k];
    if entrada {
      agrupados' := agrupados'[k := t.(entradas := t.entradas + valor)];
    } else {
      agrupados' := agrupados'[k := t.(saidas := t.saidas + valor)];
    }
  }

  /** One step of `Acumular`, seen from a single label `c`. */
  lemma PassoChave(inicial: map<Chave, Totais>, rs: seq<Registro>, i: nat, entrada: bool,
                   antes: map<Chave, Totais>, depois: map<Chave, Totais>, c: Chave)
    requires i < |rs| && c in depois
    requires c in antes <==> c in inicial || c in Chaves(rs[..i])
    requires c in antes ==> antes[c] == Somado(Anterior(inicial, c), SomaPorChave(rs[..i], c), entrada)
    requires c != ChaveDe(rs[i]) ==> c in antes && depois[c] == antes[c]
    requires c == ChaveDe(rs[i]) ==> depois[c] == Somado(Anterior(antes, c), rs[i].valor, entrada)
    ensures depois[c] == Somado(Anterior(inicial, c), SomaPorChave(rs[..i + 1], c), entrada)
  {
    assert rs[..i + 1] == rs[..i] + [rs[i]];
    SomaPorChaveAcrescentar(rs[..i], rs[i], c);
    if c == ChaveDe(rs[i]) && c !in antes {
      SomaPorChaveAusente(rs[..i], c);
    }
  }

  /** One step of `Acumular` keeps "the labels present are the initial ones
      plus those of the records folded in so far". */
  lemma PassoChaves(inicial: map<Chave, Totais>, rs: seq<Registro>, i: nat,
                    antes: map<Chave, Totais>, depois: map<Chave, Totais>)
    requires i < |rs|
    requires antes.Keys == inicial.Keys + Chaves(rs[..i])
    requires depois.Keys == antes.Keys + {ChaveDe(rs[i])}
    ensures depois.Keys == inicial.Keys + Chaves(rs[..i + 1])
  {
    assert rs[..i + 1] == rs[..i] + [rs[i]];
    ChavesAcrescentar(rs[..i], rs[i]);
  }

  /** One step of `Acumular` keeps "each label holds its initial value plus
      the sums of the records folded in so far". */
  lemma PassoSomarLista(inicial: map<Chave, Totais>, rs: seq<Registro>, i: nat, entrada: bool,
                        antes: map<Chave, Totais>, depois: map<Chave, Totais>)
    requires i < |rs|
    requires antes.Keys == inicial.Keys + Chaves(rs[..i])
    requires forall c :: c in antes ==> antes[c] == Somado(Anterior(inicial, c), SomaPorChave(rs[..i], c), entrada)
    requires depois.Keys == antes.Keys + {ChaveDe(rs[i])}
    requires forall c :: c in depois ==>
               depois[c] == if c == ChaveDe(rs[i]) then Somado(Anterior(antes, c), rs[i].valor, entrada) else antes[c]
    ensures forall c :: c in depois ==> depois[c] == Somado(Anterior(inicial, c), SomaPorChave(rs[..i + 1], c), entrada)
  {
    forall c | c in depois
      ensures depois[c] == Somado(Anterior(inicial, c), SomaPorChave(rs[..i + 1], c), entrada)
    {
      PassoChave(inicial, rs, i, entrada, antes, depois, c);
    }
  }

  /** One `forEach` over a list of records (the inflows when `entrada`
      holds, the outflows otherwise): afterwards every label of the list is
      present, and each label's side has grown by the sum of that label's
      amounts in the list. */
  method SomarLista(inicial: map<Chave, Totais>, ordemInicial: seq<Chave>, rs: seq<Registro>, entrada: bool)
    returns (agrupados: map<Chave, Totais>, ordem: seq<Chave>)
    requires Distintos(ordemInicial) && forall c :: c in ordemInicial <==> c in inicial
    ensures Distintos(ordem) && forall c :: c in ordem <==> c in agrupados
    ensures agrupados.Keys == inicial.Keys + Chaves(rs)
    ensures forall c :: c in agrupados ==> agrupados[c] == Somado(Anterior(inicial, c), SomaPorChave(rs, c), entrada)
  {
    agrupados, ordem := inicial, ordemInicial;
    for i := 0 to |rs|
      invariant Distintos(ordem) && forall c :: c in ordem <==> c in agrupados
      invariant agrupados.Keys == inicial.Keys + Chaves(rs[..i])
      invariant forall c :: c in agrupados ==>
                  agrupados[c] == Somado(Anterior(inicial, c), SomaPorChave(rs[..i], c), entrada)
    {
      var antes := agrupados;
      agrupados, ordem := Acumular(agrupados, ordem, ChaveDe(rs[i]), rs[i].valor, entrada);
      PassoChaves(inicial, rs, i, antes, agrupados);
      PassoSomarLista(inicial, rs, i, entrada, antes, agrupados);
    }
    assert rs[..|rs|] == rs;
  }

  /** Builds `dadosAgrupados`: one entry per label found in either list,
      holding the sum of the inflow amounts and the sum of the outflow
      amounts under that label. `ordem` is the order in which the labels were
      first met, the order of the object's keys. */
  method Agrupar(entradas: seq<Registro>, saidas: seq<Registro>)
    returns (agrupados: map<Chave, Totais>, ordem: seq<Chave>)
    ensures agrupados.Keys == Chaves(entradas) + Chaves(saidas)
    ensures Distintos(ordem) && forall c :: c in ordem <==> c in agrupados
    ensures forall c :: c in agrupados ==>
              agrupados[c] == Totais(SomaPorChave(entradas, c), SomaPorChave(saidas, c))
  {
    var soEntradas, ordemEntradas := SomarLista(map[], [], entradas, true);
    agrupados, ordem := SomarLista(soEntradas, ordemEntradas, saidas, false);
    forall c | c in agrupados && c !in soEntradas
      ensures SomaPorChave(entradas, c) == 0.0
    {
      SomaPorChaveAusente(entradas, c);
    }
  }

  // ---------------------------------------------------------------------
  // Conversion to chart rows: `Object.entries(...).map(...).sort(...)`

  /** The row of one label: its two sums and their difference. */
  function Linha(k: Chave, t: Totais): LinhaGrafico
  {
    LinhaGrafico(k, t.entradas, t.saidas, t.entradas - t.saidas)
  }

  /** The sort comparator on two labels: month difference, or day difference
      within the same month. Its sign orders labels by (month, day), and it
      is zero only for equal labels. */
  function Comparar(a: Chave, b: Chave): (r: int)
    ensures r < 0 <==> Antes(a, b)
    ensures r > 0 <==> Antes(b, a)
    ensures r == 0 <==> a == b
  {
    if a.mes != b.mes then a.mes - b.mes else a.dia - b.dia
  }

  /** Label `a` comes strictly before label `b` by (month, day). */
  predicate Antes(a: Chave, b: Chave)
  {
    a.mes < b.mes || (a.mes == b.mes && a.dia < b.dia)
  }

  /** No row sorts after a later one. */
  predicate Ordenada(ls: seq<LinhaGrafico>)
  {
    forall i, j :: 0 <= i < j < |ls| ==> Comparar(ls[i].date, ls[j].date) <= 0
  }

  predicate DatasDistintas(ls: seq<LinhaGrafico>)
  {
    forall i, j :: 0 <= i < j < |ls| ==> ls[i].date != ls[j].date
  }

  function Datas(ls: seq<LinhaGrafico>): set<Chave>
  {
    set l | l in ls :: l.date
  }

  /** Equal multisets of rows carry the same labels. */
  lemma DatasMultiset(a: seq<LinhaGrafico>, b: seq<LinhaGrafico>)
    requires multiset(a) == multiset(b)
    ensures Datas(a) == Datas(b)
  {
    assert forall x :: x in a <==> x in multiset(a);
    assert forall x :: x in b <==> x in multiset(b);
  }

  /** A row that sorts no later than every row of a sorted list may lead it. */
  lemma OrdenadaCons(x: LinhaGrafico, u: seq<LinhaGrafico>)
    requires Ordenada(u)
    requires forall j :: 0 <= j < |u| ==> Comparar(x.date, u[j].date) <= 0
    ensures Ordenada([x] + u)
  {
    var r := [x] + u;
    forall i, j | 0 <= i < j < |r| ensures Comparar(r[i].date, r[j].date) <= 0 {
      if i == 0 {
        assert r[j] == u[j - 1];
      } else {
        assert r[i] == u[i - 1] && r[j] == u[j - 1];
      }
    }
  }

  /** A property of every row of `t` holds of every row of a permutation
      of `t`. */
  lemma TodasPermutacao(p: LinhaGrafico -> bool, t: seq<LinhaGrafico>, u: seq<LinhaGrafico>)
    requires multiset(u) == multiset(t)
    requires forall j :: 0 <= j < |t| ==> p(t[j])
    ensures forall j :: 0 <= j < |u| ==> p(u[j])
  {
    forall j | 0 <= j < |u| ensures p(u[j]) {
      assert u[j] in multiset(t);
      var k :| 0 <= k < |t| && t[k] == u[j];
    }
  }

  /** The tail of a sorted list is sorted and sorts no earlier than its head. */
  lemma OrdenadaCauda(ls: seq<LinhaGrafico>)
    requires ls != [] && Ordenada(ls)
    ensures Ordenada(ls[1..])
    ensures forall j :: 0 <= j < |ls[1..]| ==> Comparar(ls[0].date, ls[1..][j].date) <= 0
  {
    var t := ls[1..];
    forall i, j | 0 <= i < j < |t| ensures Comparar(t[i].date, t[j].date) <= 0 {
      assert t[i] == ls[i + 1] && t[j] == ls[j + 1];
    }
    forall j | 0 <= j < |t| ensures Comparar(ls[0].date, t[j].date) <= 0 {
      assert t[j] == ls[j + 1];
    }
  }

  /** Places `l` in front of the first row it does not sort after. */
  function Inserir(l: LinhaGrafico, ls: seq<LinhaGrafico>): (r: seq<LinhaGrafico>)
    requires Ordenada(ls)
    ensures Ordenada(r)
    ensures multiset(r) == multiset(ls) + multiset{l}
    decreases |ls|
  {
    if ls == [] then [l]
    else if Comparar(l.date, ls[0].date) <= 0 then
      OrdenadaCons(l, ls);
      [l] + ls
    else
      var t := ls[1..];
      OrdenadaCauda(ls);
      var u := Inserir(l, t);
      assert forall j :: 0 <= j < |t + [l]| ==> Comparar(ls[0].date, (t + [l])[j].date) <= 0;
      TodasPermutacao((y: LinhaGrafico) => Comparar(ls[0].date, y.date) <= 0, t + [l], u);
      OrdenadaCons(ls[0], u);
      assert multiset(ls) == multiset{ls[0]} + multiset(t) by {
        assert ls == [ls[0]] + t;
      }
      [ls[0]] + u
  }

  /** A row whose label differs from all labels of `u` may lead it. */
  lemma DistintasCons(x: LinhaGrafico, u: seq<LinhaGrafico>)
    requires DatasDistintas(u)
    requires forall j :: 0 <= j < |u| ==> u[j].date != x.date
    ensures DatasDistintas([x] + u)
  {
    var r := [x] + u;
    forall i, j | 0 <= i < j < |r| ensures r[i].date != r[j].date {
      if i == 0 {
        assert r[j] == u[j - 1];
      } else {
        assert r[i] == u[i - 1] && r[j] == u[j - 1];
      }
    }
  }

  /** The tail of rows with distinct labels has distinct labels, none of them
      the head's. */
  lemma DistintasCauda(ls: seq<LinhaGrafico>)
    requires ls != [] && DatasDistintas(ls)
    ensures DatasDistintas(ls[1..])
    ensures forall j :: 0 <= j < |ls[1..]| ==> ls[1..][j].date != ls[0].date
  {
    var t := ls[1..];
    forall i, j | 0 <= i < j < |t| ensures t[i].date != t[j].date {
      assert t[i] == ls[i + 1] && t[j] == ls[j + 1];
    }
    forall j | 0 <= j < |t| ensures t[j].date != ls[0].date {
      assert t[j] == ls[j + 1];
    }
  }

  /** Inserting a row whose label is new into rows with distinct labels
      keeps the labels distinct. */
  lemma {:induction false} InserirDistintas(l: LinhaGrafico, ls: seq<LinhaGrafico>)
    requires Ordenada(ls) && DatasDistintas(ls)
    requires forall j :: 0 <= j < |ls| ==> ls[j].date != l.date
    ensures DatasDistintas(Inserir(l, ls))
    decreases |ls|
  {
    if ls == [] {
    } else if Comparar(l.date, ls[0].date) <= 0 {
      DistintasCons(l, ls);
    } else {
      var t := ls[1..];
      var u := Inserir(l, t);
      DistintasCauda(ls);
      assert forall j :: 0 <= j < |t| ==> t[j].date != l.date by {
        forall j | 0 <= j < |t| ensures t[j].date != l.date {
          assert t[j] == ls[j + 1];
        }
      }
      InserirDistintas(l, t);
      TodasPermutacao((y: LinhaGrafico) => y.date != ls[0].date, t + [l], u);
      DistintasCons(ls[0], u);
    }
  }

  /** Insertion sort by the comparator: a sorted permutation of the rows. */
  function Ordenar(ls: seq<LinhaGrafico>): (r: seq<LinhaGrafico>)
    ensures Ordenada(r)
    ensures multiset(r) == multiset(ls)
    decreases |ls|
  {
    if ls == [] then []
    else
      assert ls == [ls[0]] + ls[1..];
      Inserir(ls[0], Ordenar(ls[1..]))
  }

  /** Sorting rows with distinct labels keeps them distinct. */
  lemma {:induction false} OrdenarDistintas(ls: seq<LinhaGrafico>)
    requires DatasDistintas(ls)
    ensures DatasDistintas(Ordenar(ls))
    decreases |ls|
  {
    if ls != [] {
      var t := ls[1..];
      DistintasCauda(ls);
      OrdenarDistintas(t);
      var o := Ordenar(t);
      TodasPermutacao((y: LinhaGrafico) => y.date != ls[0].date, t, o);
      InserirDistintas(ls[0], o);
    }
  }

  /** Inserting a row adds its term to any sum over the rows. */
  lemma {:induction false} SomaInserir(l: LinhaGrafico, ls: seq<LinhaGrafico>, f: LinhaGrafico -> real)
    requires Ordenada(ls)
    ensures Soma(Inserir(l, ls), f) == Soma(ls, f) + f(l)
    decreases |ls|
  {
    if ls == [] {
      assert [l][..0] == [];
    } else if Comparar(l.date, ls[0].date) <= 0 {
      SomaCabeca(l, ls, f);
    } else {
      var t := ls[1..];
      assert ls == [ls[0]] + t;
      SomaInserir(l, t, f);
      SomaCabeca(ls[0], Inserir(l, t), f);
      SomaCabeca(ls[0], t, f);
    }
  }

  /** Sorting does not change any sum over the rows. */
  lemma {:induction false} SomaOrdenar(ls: seq<LinhaGrafico>, f: LinhaGrafico -> real)
    ensures Soma(Ordenar(ls), f) == Soma(ls, f)
    decreases |ls|
  {
    if ls != [] {
      var t := ls[1..];
      assert ls == [ls[0]] + t;
      SomaOrdenar(t, f);
      SomaInserir(ls[0], Ordenar(t), f);
      SomaCabeca(ls[0], t, f);
    }
  }

  /** `Object.entries(dadosAgrupados).map(...)`: the rows in key order. */
  function Linhas(ordem: seq<Chave>, agrupados: map<Chave, Totais>): (ls: seq<LinhaGrafico>)
    requires forall c :: c in ordem ==> c in agrupados
  {
    seq(|ordem|, i requires 0 <= i < |ordem| => Linha(ordem[i], agrupados[ordem[i]]))
  }

  /** Row `l` shows the sums kept for its label and their difference as the
      balance. */
  predicate LinhaDe(agrupados: map<Chave, Totais>, l: LinhaGrafico)
  {
    && l.date in agrupados
    && l.entradas == agrupados[l.date].entradas
    && l.saidas == agrupados[l.date].saidas
    && l.saldo == l.entradas - l.saidas
  }

  lemma LinhasPropriedades(ordem: seq<Chave>, agrupados: map<Chave, Totais>)
    requires forall c :: c in ordem ==> c in agrupados
    ensures Datas(Linhas(ordem, agrupados)) == set c | c in ordem
    ensures forall j :: 0 <= j < |ordem| ==> LinhaDe(agrupados, Linhas(ordem, agrupados)[j])
    ensures Distintos(ordem) ==> DatasDistintas(Linhas(ordem, agrupados))
  {
    var linhas := Linhas(ordem, agrupados);
    forall c | c in ordem ensures c in Datas(linhas) {
      var p :| 0 <= p < |ordem| && ordem[p] == c;
      assert linhas[p].date == c;
    }
  }

  /** Sorted rows with distinct labels are strictly ascending. */
  lemma EstritaSeDistintas(ls: seq<LinhaGrafico>)
    requires Ordenada(ls) && DatasDistintas(ls)
    ensures forall i, j :: 0 <= i < j < |ls| ==> Antes(ls[i].date, ls[j].date)
  {
  }

  /** `Object.entries(dadosAgrupados).map(...).sort(...)`: one row per key,
      each carrying that key's sums and their difference as the balance,
      sorted by (month, day); as the keys of an object are distinct, each
      row comes strictly before the next. */
  function ParaGrafico(ordem: seq<Chave>, agrupados: map<Chave, Totais>): (ls: seq<LinhaGrafico>)
    requires forall c :: c in ordem ==> c in agrupados
    ensures |ls| == |ordem|
    ensures Ordenada(ls)
    ensures Datas(ls) == set c | c in ordem
    ensures forall i :: 0 <= i < |ls| ==> LinhaDe(agrupados, ls[i])
    ensures Distintos(ordem) ==> forall i, j :: 0 <= i < j < |ls| ==> Antes(ls[i].date, ls[j].date)
  {
    var linhas := Linhas(ordem, agrupados);
    var ls := Ordenar(linhas);
    assert |ls| == |linhas| by {
      assert |multiset(ls)| == |multiset(linhas)|;
    }
    LinhasPropriedades(ordem, agrupados);
    DatasMultiset(ls, linhas);
    TodasPermutacao((l: LinhaGrafico) => LinhaDe(agrupados, l), linhas, ls);
    assert Distintos(ordem) ==> forall i, j :: 0 <= i < j < |ls| ==> Antes(ls[i].date, ls[j].date) by {
      if Distintos(ordem) {
        OrdenarDistintas(linhas);
        EstritaSeDistintas(ls);
      }
    }
    ls
  }

  // ---------------------------------------------------------------------
  // Conservation of the totals

  /** Summing the per-label sums over every label of `rs`, each label once,
      gives the plain sum of the amounts of `rs`. */
  lemma {:induction false} Conservacao(ordem: seq<Chave>, rs: seq<Registro>)
    requires Distintos(ordem)
    requires Chaves(rs) <= set c | c in ordem
    ensures Soma(ordem, PorChave(rs)) == Soma(rs, Valor)
    decreases |rs|
  {
    if rs == [] {
      SomaZero(ordem, PorChave(rs));
    } else {
      var n := |rs| - 1;
      var rs', r := rs[..n], rs[n];
      assert rs == rs' + [r];
      ChavesAcrescentar(rs', r);
      Conservacao(ordem, rs');
      var indicador := (c: Chave) => if ChaveDe(r) == c then r.valor else 0.0;
      forall i | 0 <= i < |ordem|
        ensures PorChave(rs)(ordem[i]) == PorChave(rs')(ordem[i]) + indicador(ordem[i])
      {
        SomaPorChaveAcrescentar(rs', r, ordem[i]);
      }
      SomaAditiva(ordem, PorChave(rs'), indicador, PorChave(rs));
      SomaTermoUnico(ordem, indicador, ChaveDe(r));
    }
  }

  /** The row sums over a list of labels equal the per-label sums. */
  lemma LinhasSomam(ordem: seq<Chave>, agrupados: map<Chave, Totais>, entradas: seq<Registro>, saidas: seq<Registro>)
    requires forall c :: c in ordem ==> c in agrupados
    requires forall c :: c in agrupados ==>
               agrupados[c] == Totais(SomaPorChave(entradas, c), SomaPorChave(saidas, c))
    ensures Soma(Linhas(ordem, agrupados), EntradasDe) == Soma(ordem, PorChave(entradas))
    ensures Soma(Linhas(ordem, agrupados), SaidasDe) == Soma(ordem, PorChave(saidas))
  {
    var linhas := Linhas(ordem, agrupados);
    SomaPontual(linhas, EntradasDe, ordem, PorChave(entradas));
    SomaPontual(linhas, SaidasDe, ordem, PorChave(saidas));
  }

  // ---------------------------------------------------------------------
  // `buscarDadosGrafico`, after both lists have been fetched

  /** The chart rows for the fetched inflows and outflows: exactly one row
      per label that occurs in either list (days without records have no
      row), each row holding the sum of that label's inflows, the sum of its
      outflows and their difference, the rows strictly ascending by (month,
      day), and the inflow and outflow columns adding up to the totals of
      the two lists. */
  method DadosGrafico(entradas: seq<Registro>, saidas: seq<Registro>) returns (chartData: seq<LinhaGrafico>)
    ensures Datas(chartData) == Chaves(entradas) + Chaves(saidas)
    ensures forall i, j :: 0 <= i < j < |chartData| ==> Antes(chartData[i].date, chartData[j].date)
    ensures forall l :: l in chartData ==>
              && l.entradas == SomaPorChave(entradas, l.date)
              && l.saidas == SomaPorChave(saidas, l.date)
              && l.saldo == l.entradas - l.saidas
    ensures Soma(chartData, EntradasDe) == Soma(entradas, Valor)
    ensures Soma(chartData, SaidasDe) == Soma(saidas, Valor)
  {
    var agrupados, ordem := Agrupar(entradas, saidas);
    chartData := ParaGrafico(ordem, agrupados);
    var linhas := Linhas(ordem, agrupados);
    SomaOrdenar(linhas, EntradasDe);
    SomaOrdenar(linhas, SaidasDe);
    LinhasSomam(ordem, agrupados, entradas, saidas);
    Conservacao(ordem, entradas);
    Conservacao(ordem, saidas);
  }
}
