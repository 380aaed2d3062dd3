/** The pager of the saved-calculations list: the number of pages and the
    slice of the full list that a page shows, ten items per page. */
module Paginacao {

  /** `itensPorPagina`. */
  const ITENS_POR_PAGINA: nat := 10

  function Min(a: int, b: int): int { if a <= b then a else b }

  /** `Math.ceil(totalItens / itensPorPagina)`: the least number of pages
      that holds every item (zero pages for no items). */
  function TotalPaginas(totalItens: nat): (r: nat)
    ensures r * ITENS_POR_PAGINA >= totalItens
    ensures r == 0 || (r - 1) * ITENS_POR_PAGINA < totalItens
  {
    (totalItens + ITENS_POR_PAGINA - 1) / ITENS_POR_PAGINA
  }

  /** How `Array.prototype.slice` reads one of its bounds for a list of
      length `n`: a negative bound counts from the end, and the result is
      clamped to `0..n`. */
  function Limite(p: int, n: nat): (r: nat)
    ensures r <= n
    ensures 0 <= p ==> r == Min(p, n)
    ensures p < 0 ==> r == (if n + p < 0 then 0 else n + p)
  {
    if p < 0 then (if n + p < 0 then 0 else n + p) else Min(p, n)
  }

  /** `s.slice(inicio, fim)`: empty when the start bound is not before the
      end bound. */
  function Fatia<T>(s: seq<T>, inicio: int, fim: int): (r: seq<T>)
    ensures |r| <= |s|
    ensures Limite(inicio, |s|) < Limite(fim, |s|) ==> r == s[Limite(inicio, |s|)..Limite(fim, |s|)]
    ensures Limite(fim, |s|) <= Limite(inicio, |s|) ==> r == []
  {
    var i, j := Limite(inicio, |s|), Limite(fim, |s|);
    if i < j then s[i..j] else []
  }

  /** The page `paginaAtual` of `todas`: at most ten items; for a page
      number from 1 on, the items from position (page - 1) * 10 up to
      page * 10, cut at the end of the list; a page within `TotalPaginas`
      is never empty and a page past it always is. */
  function Pagina<T>(todas: seq<T>, paginaAtual: int): (r: seq<T>)
    ensures |r| <= ITENS_POR_PAGINA
    ensures 1 <= paginaAtual ==>
              r == todas[Min((paginaAtual - 1) * ITENS_POR_PAGINA, |todas|)..Min(paginaAtual * ITENS_POR_PAGINA, |todas|)]
    ensures 1 <= paginaAtual <= TotalPaginas(|todas|) ==> r != []
    ensures TotalPaginas(|todas|) < paginaAtual ==> r == []
  {
    var indiceInicial := (paginaAtual - 1) * ITENS_POR_PAGINA;
    var indiceFinal := indiceInicial + ITENS_POR_PAGINA;
    Fatia(todas, indiceInicial, indiceFinal)
  }

  /** Pages 1 to `k` placed one after the other. */
  function Paginas<T>(todas: seq<T>, k: nat): seq<T>
  {
    if k == 0 then [] else Paginas(todas, k - 1) + Pagina(todas, k)
  }

  /** The first `k` pages are the first `k * 10` items (or all of them). */
  lemma {:induction false} PaginasPrefixo<T>(todas: seq<T>, k: nat)
    ensures Paginas(todas, k) == todas[..Min(k * ITENS_POR_PAGINA, |todas|)]
  {
    if k > 0 {
      PaginasPrefixo(todas, k - 1);
      var a := Min((k - 1) * ITENS_POR_PAGINA, |todas|);
      var b := Min(k * ITENS_POR_PAGINA, |todas|);
      assert todas[..a] + todas[a..b] == todas[..b];
    }
  }

  /** Reading pages 1 to `TotalPaginas` in turn gives back the whole list,
      each item once and in order. */
  lemma PaginasCobremTudo<T>(todas: seq<T>)
    ensures Paginas(todas, TotalPaginas(|todas|)) == todas
  {
    PaginasPrefixo(todas, TotalPaginas(|todas|));
  }
}
