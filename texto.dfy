/** `String.prototype.trim` as the acquirer form uses it: the name is accepted
    only when something is left after trimming. */
module Texto {

  /** The ECMAScript WhiteSpace and LineTerminator code points that `trim`
      removes from both ends of a string. */
  predicate EhEspaco(c: char)
  {
    || c == '\t' || c == '\n' || c == '\U{000B}' || c == '\U{000C}' || c == '\r'
    || c == ' ' || c == '\U{00A0}' || c == '\U{1680}'
    || ('\U{2000}' <= c <= '\U{200A}')
    || c == '\U{2028}' || c == '\U{2029}' || c == '\U{202F}' || c == '\U{205F}'
    || c == '\U{3000}' || c == '\U{FEFF}'
  }

  /** Every character of `s` is white space (true of the empty string). */
  predicate SoEspacos(s: string)
  {
    forall i :: 0 <= i < |s| ==> EhEspaco(s[i])
  }

  /** `s` without its leading white space. */
  function AparaInicio(s: string): (r: string)
    ensures |r| <= |s| && r == s[|s| - |r|..]
    ensures SoEspacos(s[..|s| - |r|])
    ensures r == [] || !EhEspaco(r[0])
  {
    if |s| > 0 && EhEspaco(s[0]) then
      var r := AparaInicio(s[1..]);
      assert forall i :: 0 < i < |s| - |r| ==> s[i] == s[1..][..|s| - 1 - |r|][i - 1];
      r
    else
      s
  }

  /** `s` without its trailing white space. */
  function AparaFim(s: string): (r: string)
    ensures |r| <= |s| && r == s[..|r|]
    ensures SoEspacos(s[|r|..])
    ensures r == [] || !EhEspaco(r[|r| - 1])
  {
    if |s| > 0 && EhEspaco(s[|s| - 1]) then
      var t := s[..|s| - 1];
      var r := AparaFim(t);
      assert forall i :: |r| <= i < |t| ==> s[i] == t[|r|..][i - |r|];
      r
    else
      s
  }

  /** `s.trim()`. */
  function Apara(s: string): string
  {
    AparaFim(AparaInicio(s))
  }

  /** `trim` leaves exactly the stretch from the first to the last
      non-white-space character: nothing is left precisely when the string is
      made of white space only, and otherwise the result starts and ends with
      a character that is not white space and sits inside `s`. */
  lemma AparaVazioSseSoEspacos(s: string)
    ensures Apara(s) == [] <==> SoEspacos(s)
    ensures Apara(s) != [] ==> !EhEspaco(Apara(s)[0]) && !EhEspaco(Apara(s)[|Apara(s)| - 1])
    ensures exists i, j :: 0 <= i <= j <= |s| && Apara(s) == s[i..j]
  {
    var t := AparaInicio(s);
    var k := |s| - |t|;
    var r := AparaFim(t);
    assert r == t[..|r|];
    assert Apara(s) == s[k..k + |r|];
    if r == [] {
      assert t[|r|..] == t;
      assert t == [];
      assert s[..k] == s;
    } else {
      assert !EhEspaco(t[0]);
      assert !EhEspaco(s[k]);
    }
  }

  /** The acquirer form's test `nome.trim()` is falsy. */
  predicate EmBranco(s: string)
    ensures EmBranco(s) <==> SoEspacos(s)
  {
    AparaVazioSseSoEspacos(s);
    Apara(s) == []
  }
}
